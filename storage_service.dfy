/** Validation, key layout and upload of a version's two artifacts, the model
    file and requirements.txt (app/services/storage_service.py). The object
    store behind it is a fake whose failing keys are part of its state. */
module StorageService {
  import opened Wrappers
  import opened Http
  import opened Text

  newtype byte = b: int | 0 <= b < 256

  const MaxModelFileSize: nat := 500 * 1024 * 1024
  const MaxRequirementsFileSize: nat := 1024 * 1024

  /** The allowed extensions, in the order in which they are tried and listed. */
  const ModelExtensions: seq<string> := [".joblib", ".pkl", ".pickle"]
  const RequirementsExtensions: seq<string> := [".txt"]

  /** An uploaded file: the client's file name, if any, and the outcome of
      reading its body (the text of the exception when reading fails). */
  datatype UploadFile = UploadFile(filename: Option<string>, content: Result<seq<byte>, string>)

  predicate HasFilename(file: UploadFile)
  {
    file.filename.Some? && file.filename.value != ""
  }

  /** The lower-cased name ends with one of the allowed extensions. */
  predicate ExtensionAllowed(name: string, allowed: seq<string>)
  {
    exists i :: 0 <= i < |allowed| && EndsWith(Lower(name), allowed[i])
  }

  const MissingFilename: HttpError := BadRequest("File must have a filename")

  function ExtensionRejected(allowed: seq<string>): HttpError
  {
    BadRequest("File extension not allowed. Allowed: " + Join(allowed, ", "))
  }

  /** _validate_file: a non-empty file name whose lower-cased form ends with an
      allowed extension. Sizes are checked later, once the body is read. */
  method ValidateFile(file: UploadFile, allowed: seq<string>) returns (r: Outcome<HttpError>)
    ensures !HasFilename(file) ==> r == Fail(MissingFilename)
    ensures HasFilename(file) ==>
      (r.Pass? <==> ExtensionAllowed(file.filename.value, allowed))
    ensures HasFilename(file) && r.Fail? ==> r.error == ExtensionRejected(allowed)
  {
    if file.filename.None? || file.filename.value == "" {
      return Fail(MissingFilename);
    }
    var name := Lower(file.filename.value);
    var fileExt: Option<string> := None;
    var i := 0;
    while i < |allowed|
      invariant 0 <= i <= |allowed|
      invariant fileExt.None?
      invariant forall j :: 0 <= j < i ==> !EndsWith(name, allowed[j])
    {
      if EndsWith(name, allowed[i]) {
        fileExt := Some(allowed[i]);
        break;
      }
      i := i + 1;
    }
    if fileExt.None? {
      return Fail(ExtensionRejected(allowed));
    }
    r := Pass;
  }

  /** The file-name check as a value, for the specifications below. */
  function FileCheck(file: UploadFile, allowed: seq<string>): Outcome<HttpError>
  {
    if !HasFilename(file) then Fail(MissingFilename)
    else if ExtensionAllowed(file.filename.value, allowed) then Pass
    else Fail(ExtensionRejected(allowed))
  }

  /** Every name passing the model check ends in a different character from
      every name passing the requirements check, so the two never coincide. */
  lemma AcceptedNamesDiffer(modelName: string, requirementsName: string)
    requires ExtensionAllowed(modelName, ModelExtensions)
    requires ExtensionAllowed(requirementsName, RequirementsExtensions)
    ensures modelName != requirementsName
  {
    var i :| 0 <= i < |ModelExtensions| && EndsWith(Lower(modelName), ModelExtensions[i]);
    var ext := ModelExtensions[i];
    var m := Lower(modelName);
    assert m[|m| - 1] == ext[|ext| - 1] by {
      assert m[|m| - |ext|..][|ext| - 1] == ext[|ext| - 1];
    }
    var rq := Lower(requirementsName);
    assert rq[|rq| - 1] == 't' by {
      assert EndsWith(rq, ".txt");
      assert rq[|rq| - 4..][3] == 't';
    }
    assert ext[|ext| - 1] in {'b', 'l', 'e'};
  }

  /** The file-name check ignores case: "model.PKL" passes as a model file. */
  lemma ModelNameCaseIgnored()
    ensures FileCheck(UploadFile(Some("model.PKL"), Success([])), ModelExtensions) == Pass
  {
    var m := Lower("model.PKL");
    assert m[6] == 'p' && m[7] == 'k' && m[8] == 'l' && m[5] == '.';
    assert m[|m| - 4..] == ".pkl";
    assert EndsWith(m, ModelExtensions[1]);
  }

  /** "model.txt" is refused as a model file, and a nameless file is refused
      before its extension is looked at. */
  lemma FileCheckRefusals(content: Result<seq<byte>, string>)
    ensures FileCheck(UploadFile(Some("model.txt"), content), ModelExtensions) == Fail(ExtensionRejected(ModelExtensions))
    ensures FileCheck(UploadFile(Some(""), content), ModelExtensions) == Fail(MissingFilename)
    ensures FileCheck(UploadFile(None, content), RequirementsExtensions) == Fail(MissingFilename)
  {
    var m := Lower("model.txt");
    assert m[|m| - 1] == 't';
    forall i | 0 <= i < |ModelExtensions| ensures !EndsWith(m, ModelExtensions[i]) {
      var ext := ModelExtensions[i];
      assert ext[|ext| - 1] != 't';
    }
  }

  // Object keys

  predicate KeepsChar(c: char)
  {
    IsAlnum(c) || c == '-' || c == '_'
  }

  /** Letters, digits, '-' and '_' stay (lower-cased), anything else becomes '_'. */
  function Sanitize(name: string): (r: string)
  {
    Lower(seq(|name|, i requires 0 <= i < |name| => if KeepsChar(name[i]) then name[i] else '_'))
  }

  /** Sanitising keeps the length, leaves only lower-case letters, digits, '-'
      and '_', keeps every such character of a lower-case name in place, and
      sanitising twice changes nothing more. */
  lemma SanitizeProperties(name: string)
    ensures |Sanitize(name)| == |name|
    ensures forall i :: 0 <= i < |name| ==> KeepsChar(Sanitize(name)[i]) && !IsUpper(Sanitize(name)[i])
    ensures forall i :: 0 <= i < |name| && KeepsChar(name[i]) ==> Sanitize(name)[i] == LowerChar(name[i])
    ensures forall i :: 0 <= i < |name| && !KeepsChar(name[i]) ==> Sanitize(name)[i] == '_'
    ensures Sanitize(Sanitize(name)) == Sanitize(name)
  {
    var r := Sanitize(name);
    forall i | 0 <= i < |name| ensures KeepsChar(r[i]) {
      if KeepsChar(name[i]) {
        assert r[i] == LowerChar(name[i]);
      }
    }
    var rr := Sanitize(r);
    assert |rr| == |r|;
    forall i | 0 <= i < |r| ensures rr[i] == r[i] {
      assert KeepsChar(r[i]) && !IsUpper(r[i]);
    }
  }

  /** `models/{user_id}/{sanitized_name}/{version_tag}/{filename}`. */
  function ObjectKey(userId: int, modelName: string, versionTag: string, filename: string): (key: string)
  {
    "models/" + IntToString(userId) + "/" + Sanitize(modelName) + "/" + versionTag + "/" + filename
  }

  /** The key is the common prefix for (user, model, tag) followed by the file name,
      so the two artifacts of a version share a folder and differ exactly by name. */
  lemma ObjectKeyLayout(userId: int, modelName: string, versionTag: string, f1: string, f2: string)
    ensures var prefix := "models/" + IntToString(userId) + "/" + Sanitize(modelName) + "/" + versionTag + "/";
      && ObjectKey(userId, modelName, versionTag, f1) == prefix + f1
      && (ObjectKey(userId, modelName, versionTag, f1) == ObjectKey(userId, modelName, versionTag, f2) <==> f1 == f2)
  {
    var prefix := "models/" + IntToString(userId) + "/" + Sanitize(modelName) + "/" + versionTag + "/";
    assert ObjectKey(userId, modelName, versionTag, f1) == prefix + f1;
    assert ObjectKey(userId, modelName, versionTag, f2) == prefix + f2;
    if prefix + f1 == prefix + f2 {
      assert f1 == (prefix + f1)[|prefix|..] == (prefix + f2)[|prefix|..] == f2;
    }
  }

  // The object store

  /** How a put can fail: the store's own error (S3Error) or anything else. */
  datatype PutFault = StoreError(message: string) | OtherError(message: string)

  /** A bucket of objects; a put to a key listed in `faults` fails with that fault. */
  class ObjectStore {
    const bucket: string
    var objects: map<string, seq<byte>>
    var faults: map<string, PutFault>

    constructor (bucket: string, faults: map<string, PutFault>)
      ensures this.bucket == bucket && this.faults == faults && objects == map[]
    {
      this.bucket := bucket;
      this.faults := faults;
      objects := map[];
    }

    /** The store's answer for a stored object: `s3://{bucket}/{key}`. */
    function Location(key: string): (uri: string)
    {
      "s3://" + bucket + "/" + key
    }

    method PutObject(key: string, data: seq<byte>) returns (r: Result<string, PutFault>)
      modifies this`objects
      ensures key in faults ==> r == Failure(faults[key]) && objects == old(objects)
      ensures key !in faults ==> r == Success(Location(key)) && objects == old(objects)[key := data]
    {
      if key in faults {
        return Failure(faults[key]);
      }
      objects := objects[key := data];
      r := Success(Location(key));
    }
  }

  // upload_model_artifacts

  /** Everything decided before anything is stored: both names, then both
      reads, then both sizes. On success, the two bodies. */
  function ArtifactsCheck(modelFile: UploadFile, requirementsFile: UploadFile): (r: Result<(seq<byte>, seq<byte>), HttpError>)
  {
    if FileCheck(modelFile, ModelExtensions).Fail? then Failure(FileCheck(modelFile, ModelExtensions).error)
    else if FileCheck(requirementsFile, RequirementsExtensions).Fail? then Failure(FileCheck(requirementsFile, RequirementsExtensions).error)
    else if modelFile.content.Failure? then Failure(InternalError("Unexpected error during file upload: " + modelFile.content.error))
    else if requirementsFile.content.Failure? then Failure(InternalError("Unexpected error during file upload: " + requirementsFile.content.error))
    else if |modelFile.content.value| > MaxModelFileSize then Failure(BadRequest("Model file too large. Max size: 500 MB"))
    else if |requirementsFile.content.value| > MaxRequirementsFileSize then Failure(BadRequest("Requirements file too large. Max size: 1 MB"))
    else Success((modelFile.content.value, requirementsFile.content.value))
  }

  function PutFailure(f: PutFault): HttpError
  {
    match f
    case StoreError(m) => InternalError("Failed to upload files to storage: " + m)
    case OtherError(m) => InternalError("Unexpected error during file upload: " + m)
  }

  /** The answer of upload_model_artifacts and the objects it leaves: the model
      file is put first, then requirements.txt; a failed put ends the upload
      and nothing already stored is removed. */
  function UploadSpec(objects: map<string, seq<byte>>, faults: map<string, PutFault>, bucket: string,
                      userId: int, modelName: string, versionTag: string,
                      modelFile: UploadFile, requirementsFile: UploadFile): (Result<(string, string), HttpError>, map<string, seq<byte>>)
  {
    match ArtifactsCheck(modelFile, requirementsFile)
    case Failure(e) => (Failure(e), objects)
    case Success((modelBody, requirementsBody)) =>
      var modelKey := ObjectKey(userId, modelName, versionTag, modelFile.filename.value);
      var requirementsKey := ObjectKey(userId, modelName, versionTag, requirementsFile.filename.value);
      if modelKey in faults then (Failure(PutFailure(faults[modelKey])), objects)
      else
        var afterModel := objects[modelKey := modelBody];
        if requirementsKey in faults then (Failure(PutFailure(faults[requirementsKey])), afterModel)
        else
          (Success(("s3://" + bucket + "/" + modelKey, "s3://" + bucket + "/" + requirementsKey)),
           afterModel[requirementsKey := requirementsBody])
  }

  method UploadModelArtifacts(store: ObjectStore, userId: int, modelName: string, versionTag: string,
                              modelFile: UploadFile, requirementsFile: UploadFile)
    returns (r: Result<(string, string), HttpError>)
    modifies store`objects
    ensures (r, store.objects) ==
      UploadSpec(old(store.objects), store.faults, store.bucket, userId, modelName, versionTag, modelFile, requirementsFile)
  {
    var check := ValidateFile(modelFile, ModelExtensions);
    if check.Fail? {
      return Failure(check.error);
    }
    check := ValidateFile(requirementsFile, RequirementsExtensions);
    if check.Fail? {
      return Failure(check.error);
    }
    if modelFile.content.Failure? {
      return Failure(InternalError("Unexpected error during file upload: " + modelFile.content.error));
    }
    if requirementsFile.content.Failure? {
      return Failure(InternalError("Unexpected error during file upload: " + requirementsFile.content.error));
    }
    var modelBody, requirementsBody := modelFile.content.value, requirementsFile.content.value;
    if |modelBody| > MaxModelFileSize {
      return Failure(BadRequest("Model file too large. Max size: 500 MB"));
    }
    if |requirementsBody| > MaxRequirementsFileSize {
      return Failure(BadRequest("Requirements file too large. Max size: 1 MB"));
    }
    var modelKey := ObjectKey(userId, modelName, versionTag, modelFile.filename.value);
    var requirementsKey := ObjectKey(userId, modelName, versionTag, requirementsFile.filename.value);
    var modelPath := store.PutObject(modelKey, modelBody);
    if modelPath.Failure? {
      return Failure(PutFailure(modelPath.error));
    }
    var requirementsPath := store.PutObject(requirementsKey, requirementsBody);
    if requirementsPath.Failure? {
      return Failure(PutFailure(requirementsPath.error));
    }
    r := Success((modelPath.value, requirementsPath.value));
  }

  /** Refusals before any put leave the store untouched; a file exactly at its
      size limit passes the size check and one byte more does not. */
  lemma UploadChecksComeFirst(objects: map<string, seq<byte>>, faults: map<string, PutFault>, bucket: string,
                              userId: int, modelName: string, versionTag: string,
                              modelFile: UploadFile, requirementsFile: UploadFile)
    ensures var (r, objects') := UploadSpec(objects, faults, bucket, userId, modelName, versionTag, modelFile, requirementsFile);
      && (ArtifactsCheck(modelFile, requirementsFile).Failure? ==>
            r == Failure(ArtifactsCheck(modelFile, requirementsFile).error) && objects' == objects)
      && (FileCheck(modelFile, ModelExtensions).Fail? ==> r == Failure(FileCheck(modelFile, ModelExtensions).error))
      && (FileCheck(modelFile, ModelExtensions).Pass? && FileCheck(requirementsFile, RequirementsExtensions).Fail? ==>
            r == Failure(FileCheck(requirementsFile, RequirementsExtensions).error))
    ensures forall body: seq<byte> :: |body| == MaxModelFileSize ==>
      ArtifactsCheck(UploadFile(Some("m.pkl"), Success(body)), UploadFile(Some("r.txt"), Success([]))).Success?
    ensures forall body: seq<byte> :: |body| == MaxModelFileSize + 1 ==>
      ArtifactsCheck(UploadFile(Some("m.pkl"), Success(body)), UploadFile(Some("r.txt"), Success([])))
        == Failure(BadRequest("Model file too large. Max size: 500 MB"))
  {
    assert Lower("m.pkl") == "m.pkl" && EndsWith("m.pkl", ModelExtensions[1]);
    assert Lower("r.txt") == "r.txt" && EndsWith("r.txt", RequirementsExtensions[0]);
  }

  /** A successful upload stores both bodies and answers (model path, requirements
      path) in that order; a failure of the second put leaves the first object stored. */
  lemma UploadOutcome(objects: map<string, seq<byte>>, faults: map<string, PutFault>, bucket: string,
                      userId: int, modelName: string, versionTag: string,
                      modelFile: UploadFile, requirementsFile: UploadFile)
    ensures var (r, objects') := UploadSpec(objects, faults, bucket, userId, modelName, versionTag, modelFile, requirementsFile);
      var modelKey := ObjectKey(userId, modelName, versionTag, if modelFile.filename.Some? then modelFile.filename.value else "");
      var requirementsKey := ObjectKey(userId, modelName, versionTag, if requirementsFile.filename.Some? then requirementsFile.filename.value else "");
      && (r.Success? ==>
            && r.value == ("s3://" + bucket + "/" + modelKey, "s3://" + bucket + "/" + requirementsKey)
            && modelKey != requirementsKey
            && modelKey in objects' && objects'[modelKey] == modelFile.content.value
            && requirementsKey in objects' && objects'[requirementsKey] == requirementsFile.content.value
            && (forall k :: k in objects && k != modelKey && k != requirementsKey ==> k in objects' && objects'[k] == objects[k]))
      && (r.Failure? && ArtifactsCheck(modelFile, requirementsFile).Success? && modelKey !in faults ==>
            && requirementsKey in faults
            && r == Failure(PutFailure(faults[requirementsKey]))
            && objects' == objects[modelKey := modelFile.content.value])
      && (r.Failure? && ArtifactsCheck(modelFile, requirementsFile).Success? && modelKey in faults ==>
            r == Failure(PutFailure(faults[modelKey])) && objects' == objects)
  {
    var (r, objects') := UploadSpec(objects, faults, bucket, userId, modelName, versionTag, modelFile, requirementsFile);
    if ArtifactsCheck(modelFile, requirementsFile).Success? {
      var m, q := modelFile.filename.value, requirementsFile.filename.value;
      AcceptedNamesDiffer(m, q);
      ObjectKeyLayout(userId, modelName, versionTag, m, q);
    }
  }
}
