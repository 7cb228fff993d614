/** The grade-image upload sequence of src/api/grade.ts (`uploadGradeImage`).

    Three remote steps run in a fixed order: request a pre-signed URL, PUT the
    file to S3 with it, then create the grade record. Any failure lands in one
    catch block, which decides which stage to blame from the JavaScript
    truthiness of two locals, `preSignedUrl` and `uploadedFileUrl`, assigned as
    the steps go. The three remote helpers are not executed here: what each of
    them answered is a parameter of the model. */
module GradeUpload {
  import opened Js

  /** The browser `File` handed in: its name and MIME type (its bytes are not modelled). */
  datatype File = File(name: string, mimeType: string)

  /** `IGradeUploadParams`, flattened. */
  datatype GradeUploadParams = GradeUploadParams(
    lectureCode: string,
    studentCode: string,
    gradeImageUrl: string,
    sessionDate: string)

  /** The backend's response body (`IResponse`), carried through opaquely. */
  datatype ApiResponse = ApiResponse(code: string, message: string)

  /** What `getPreSignedUrl` produced: a response whose `data.signedUrl` may be
      missing, or a throw (a rejected request, or a response without `data`). */
  datatype PresignOutcome = PresignOk(signedUrl: Option<string>) | PresignErr

  /** What `fetch(signedUrl, { method: "PUT", ... })` produced: a response with
      its `ok` flag and `url`, or a rejection. */
  datatype S3Outcome = S3Response(ok: bool, url: string) | S3FetchErr

  /** What `createGrade` produced. */
  datatype DbOutcome = DbOk(response: ApiResponse) | DbErr

  /** A remote call the function issues, with the arguments it passes. */
  datatype Call =
    | RequestPresignedUrl(params: GradeUploadParams)
    | PutObject(url: Option<string>, fileName: string, contentType: string)
    | CreateGrade(params: GradeUploadParams)

  datatype Stage = PresignStage | S3Stage | DbStage

  /** How `uploadGradeImage` ends: it returns `createGrade`'s response, throws one
      of the three stage errors, or rethrows the caught error unchanged. */
  datatype UploadResult =
    | Success(response: ApiResponse)
    | Failure(stage: Stage, fileName: string)
    | Rethrown

  /** `uploadToS3` succeeds only on a response whose `ok` flag is set. */
  predicate S3Ok(s3: S3Outcome) {
    s3.S3Response? && s3.ok
  }

  /** The value `preSignedUrl` holds when the try block stops. */
  function SignedUrlHeld(presign: PresignOutcome): Option<string> {
    if presign.PresignOk? then presign.signedUrl else None
  }

  /** The value `uploadedFileUrl` holds when the try block stops. */
  function UploadedUrlHeld(presign: PresignOutcome, s3: S3Outcome): Option<string> {
    if presign.PresignOk? && S3Ok(s3) then Some(s3.url) else None
  }

  /** The three forward calls, in the order the try block issues them. */
  function ForwardCalls(file: File, params: GradeUploadParams, presign: PresignOutcome): seq<Call> {
    [ RequestPresignedUrl(params),
      PutObject(SignedUrlHeld(presign), file.name, file.mimeType),
      CreateGrade(params) ]
  }

  function StagePrefix(stage: Stage): string {
    match stage
    case PresignStage => "Pre-signed URL 발급 실패: "
    case S3Stage => "S3 업로드 실패: "
    case DbStage => "DB 저장 실패: "
  }

  /** The message of the Error thrown for a stage failure. */
  function ErrorMessage(stage: Stage, fileName: string): (m: string)
    ensures |StagePrefix(stage)| <= |m|
    ensures m[..|StagePrefix(stage)|] == StagePrefix(stage) && m[|StagePrefix(stage)|..] == fileName
  {
    StagePrefix(stage) + fileName
  }

  /** A thrown message tells which stage failed and for which file. */
  lemma ErrorMessageInjective(s1: Stage, n1: string, s2: Stage, n2: string)
    requires ErrorMessage(s1, n1) == ErrorMessage(s2, n2)
    ensures s1 == s2 && n1 == n2
  {
    var m := ErrorMessage(s1, n1);
    assert m[0] == StagePrefix(s1)[0] == StagePrefix(s2)[0];
  }

  /** `uploadGradeImage(file, params)`, given what each remote call answers.
      `calls` lists the remote calls it issues, in order. */
  method UploadGradeImage(
    file: File, params: GradeUploadParams,
    presign: PresignOutcome, s3: S3Outcome, db: DbOutcome)
    returns (r: UploadResult, calls: seq<Call>)
    // Only a prefix of the forward steps runs: nothing is revoked or deleted
    // on any path, and createGrade receives `params` as given.
    ensures 1 <= |calls| <= 3 && calls == ForwardCalls(file, params, presign)[..|calls|]
    ensures |calls| == 1 <==> presign.PresignErr?
    ensures |calls| == 3 <==> presign.PresignOk? && S3Ok(s3)
    // Success exactly when all three steps succeed, with createGrade's response.
    ensures r.Success? <==> presign.PresignOk? && S3Ok(s3) && db.DbOk?
    ensures r.Success? ==> r.response == db.response
    // The catch block always rewrites the error; the final `throw error` never runs.
    ensures !r.Rethrown?
    ensures r.Failure? ==> r.fileName == file.name
    // The stage is read off the locals, not off the step that failed.
    ensures r.Failure? && !Truthy(SignedUrlHeld(presign)) ==> r.stage == PresignStage
    ensures r.Failure? && Truthy(SignedUrlHeld(presign)) && !Truthy(UploadedUrlHeld(presign, s3)) ==>
      r.stage == S3Stage
    ensures r.Failure? && Truthy(SignedUrlHeld(presign)) && Truthy(UploadedUrlHeld(presign, s3)) ==>
      r.stage == DbStage
  {
    var preSignedUrl: Option<string> := None;
    var uploadedFileUrl: Option<string> := None;

    // try
    calls := [RequestPresignedUrl(params)];
    var thrown := presign.PresignErr?;
    if !thrown {
      preSignedUrl := presign.signedUrl;
      calls := calls + [PutObject(preSignedUrl, file.name, file.mimeType)];
      thrown := !S3Ok(s3);
      if !thrown {
        uploadedFileUrl := Some(s3.url);
        calls := calls + [CreateGrade(params)];
        thrown := db.DbErr?;
        if !thrown {
          return Success(db.response), calls;
        }
      }
    }

    // catch
    if !Truthy(preSignedUrl) {
      return Failure(PresignStage, file.name), calls;
    }
    if Truthy(preSignedUrl) && !Truthy(uploadedFileUrl) {
      return Failure(S3Stage, file.name), calls;
    }
    if Truthy(uploadedFileUrl) {
      return Failure(DbStage, file.name), calls;
    }
    r := Rethrown;
  }
}
