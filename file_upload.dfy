/**
 * The upload hook of hooks/useFileUpload.ts: the client-side file checks,
 * the upload's flag/progress/error state, and the message a failed upload
 * shows. The request itself is a begin step and a complete step.
 */
module FileUpload {
  import opened Wrappers
  import opened Text
  import opened ApiFailure
  import opened Precedence

  /** What the hook reads of a `File`. */
  datatype File = File(name: string, size: nat, mimeType: string)

  /** `response.data.file` of a successful upload. */
  datatype UploadResult = UploadResult(url: string, filename: string, originalName: string, size: nat, mimeType: string)

  const MaxFileSize: nat := 50 * 1024 * 1024

  // Longer literals are written as concatenations of short phrases: a proof that
  // unfolds one long literal costs the solver far more than one over its pieces.
  const OfficeOpenXml := "application/vnd." + "openxmlformats-" + "officedocument."

  /** The MIME types the hook accepts besides the empty one. */
  const AllowedTypes: seq<string> := [
    "image/jpeg", "image/png", "image/gif", "image/webp", "image/svg+xml",
    "application/pdf", "application/msword",
    OfficeOpenXml + "wordprocessingml." + "document",
    "application/" + "vnd.ms-excel",
    OfficeOpenXml + "spreadsheetml.sheet",
    "text/plain", "text/csv",
    "audio/mpeg", "audio/wav", "audio/ogg", "audio/webm",
    "video/mp4", "video/webm", "video/ogg"
  ]

  /** `File size exceeds ${MAX_FILE_SIZE / (1024 * 1024)}MB limit`, the quotient being 50. */
  function SizeMessage(): string
  {
    "File size exceeds " + "50MB limit"
  }

  function TypeMessage(mimeType: string): string
  {
    "File type \"" + mimeType + "\" is not supported"
  }

  const EmptyFileMessage := "File is empty"

  /** `validateFile`: the first check that fails gives the message; `None` when the file may be uploaded. */
  function ValidateFile(f: File): (r: Option<string>)
    ensures f.size > MaxFileSize ==> r == Some(SizeMessage())
    ensures f.size <= MaxFileSize && f.mimeType != "" && f.mimeType !in AllowedTypes ==> r == Some(TypeMessage(f.mimeType))
    ensures f.size == 0 && (f.mimeType == "" || f.mimeType in AllowedTypes) ==> r == Some(EmptyFileMessage)
    ensures r.None? <==> 0 < f.size <= MaxFileSize && (f.mimeType == "" || f.mimeType in AllowedTypes)
  {
    if f.size > MaxFileSize then Some(SizeMessage())
    else if f.mimeType !in AllowedTypes && f.mimeType != "" then Some(TypeMessage(f.mimeType))
    else if f.size == 0 then Some(EmptyFileMessage)
    else None
  }

  /** The size limit is inclusive: a file of exactly 50 MB of an accepted type passes. */
  lemma ExactlyMaxSizePasses(f: File)
    requires f.size == 50 * 1024 * 1024
    requires f.mimeType == "" || f.mimeType in AllowedTypes
    ensures ValidateFile(f) == None
    ensures ValidateFile(f.(size := f.size + 1)) == Some(SizeMessage())
  {
  }

  /** A file without a MIME type is judged by its size alone. */
  lemma EmptyTypeNeverRejectedByType(f: File)
    requires f.mimeType == ""
    ensures ValidateFile(f) != Some(TypeMessage(f.mimeType))
    ensures ValidateFile(f) == if f.size > MaxFileSize then Some(SizeMessage())
                               else if f.size == 0 then Some(EmptyFileMessage) else None
  {
    assert |TypeMessage(f.mimeType)| != |SizeMessage()|;
    assert |TypeMessage(f.mimeType)| != |EmptyFileMessage|;
  }

  /** `!conversationId || conversationId.trim() === ""`. */
  predicate InvalidConversationId(conversationId: string)
  {
    Trim(conversationId) == ""
  }

  /** An id is refused exactly when it is empty or all white space. */
  lemma InvalidConversationIdIsBlank(conversationId: string)
    ensures InvalidConversationId(conversationId) <==> AllWhitespace(conversationId)
  {
    TrimEmptyIffBlank(conversationId);
  }

  /** `Math.round(loaded * 100 / total)` for non-negative counts: halves round up. */
  function ProgressPercent(loaded: nat, total: nat): (p: nat)
    requires total != 0
    ensures 2 * total * p <= 200 * loaded + total < 2 * total * (p + 1)
    ensures loaded <= total ==> p <= 100
    ensures loaded == total ==> p == 100
  {
    var p := (200 * loaded + total) / (2 * total);
    QuotientBounds(200 * loaded + total, 2 * total);
    if loaded <= total then
      QuotientAtMost(200 * loaded + total, 2 * total, 100);
      if loaded == total then
        QuotientIs(200 * loaded + total, 2 * total, 100);
        p
      else p
    else p
  }

  lemma QuotientBounds(n: nat, d: nat)
    requires d > 0
    ensures d * (n / d) <= n < d * (n / d + 1)
  {
  }

  lemma QuotientAtMost(n: nat, d: nat, q: nat)
    requires d > 0 && n < d * (q + 1)
    ensures n / d <= q
  {
    QuotientBounds(n, d);
  }

  lemma QuotientIs(n: nat, d: nat, q: nat)
    requires d > 0 && d * q <= n < d * (q + 1)
    ensures n / d == q
  {
    QuotientBounds(n, d);
    QuotientAtMost(n, d, q);
  }

  lemma ProgressExamples()
    ensures ProgressPercent(1, 3) == 33 && ProgressPercent(1, 2) == 50 && ProgressPercent(2, 3) == 67
    ensures ProgressPercent(0, 5) == 0
  {
  }

  const UploadFailedMessage := "Failed to upload file"
  const CancelledMessage := "Upload cancelled"
  const TimeoutMessage := "Upload timeout. " + "Please try again " + "with a smaller file."
  const AuthenticationMessage := "Authentication " + "required. Please " + "log in again."
  const NoResponseMessage := "No response from " + "server. Please check " + "your connection."
  const InvalidResponseMessage := "Invalid response " + "from server"
  const InvalidIdMessage := "Invalid conversation ID"

  predicate IsAbort(e: Failure)
  {
    e.name == "AbortError" || e.code == "ERR_CANCELED"
  }

  predicate IsTimeout(e: Failure)
  {
    e.code == "ECONNABORTED" || (e.message.Some? && Contains(e.message.value, "timeout"))
  }

  /** The catch block of `uploadFile`. */
  function UploadErrorMessage(e: Failure): string
  {
    if IsAbort(e) then CancelledMessage
    else if IsTimeout(e) then TimeoutMessage
    else if e.response.Some? then
      var reply := e.response.value;
      if reply.status == 413 then "File is too large"
      else if reply.status == 415 then "File type not supported"
      else if reply.status == 401 then AuthenticationMessage
      else if reply.status == 404 then "Conversation not found"
      else if Truthy(reply.message) then reply.message.value
      else if Truthy(reply.error) then reply.error.value
      else UploadFailedMessage
    else if e.request then NoResponseMessage
    else if Truthy(e.message) then e.message.value
    else UploadFailedMessage
  }

  /**
   * The precedence as a table: abort or cancel; timeout; 413; 415; 401; 404;
   * the server's `message`; its `error`; any other answer; no answer; the
   * error's own message.
   */
  function UploadFailureRules(e: Failure): (rules: seq<Rule<string>>)
    ensures |rules| == 11
  {
    var answered := e.response.Some?;
    var reply := if answered then e.response.value else ServerReply(0, None, None);
    [ Rule(IsAbort(e), CancelledMessage),
      Rule(IsTimeout(e), TimeoutMessage),
      Rule(answered && reply.status == 413, "File is too large"),
      Rule(answered && reply.status == 415, "File type not supported"),
      Rule(answered && reply.status == 401, AuthenticationMessage),
      Rule(answered && reply.status == 404, "Conversation not found"),
      Rule(answered && Truthy(reply.message), reply.message.GetOr("")),
      Rule(answered && Truthy(reply.error), reply.error.GetOr("")),
      Rule(answered, UploadFailedMessage),
      Rule(e.request, NoResponseMessage),
      Rule(Truthy(e.message), e.message.GetOr("")) ]
  }

  /** The catch block yields what the first applicable rule of the table gives, else "Failed to upload file". */
  lemma UploadErrorIsFirstMatch(e: Failure)
    ensures UploadErrorMessage(e) == Pick(UploadFailureRules(e), UploadFailedMessage)
  {
    var rules := UploadFailureRules(e);
    if IsAbort(e) { FirstMatchIs(rules, 0); }
    else if IsTimeout(e) { FirstMatchIs(rules, 1); }
    else if e.response.Some? { AnsweredIsFirstMatch(e); }
    else if e.request { FirstMatchIs(rules, 9); }
    else if Truthy(e.message) { FirstMatchIs(rules, 10); }
    else { FirstMatchIs(rules, 11); }
  }

  lemma AnsweredIsFirstMatch(e: Failure)
    requires !IsAbort(e) && !IsTimeout(e) && e.response.Some?
    ensures UploadErrorMessage(e) == Pick(UploadFailureRules(e), UploadFailedMessage)
  {
    var rules := UploadFailureRules(e);
    var reply := e.response.value;
    if reply.status == 413 { FirstMatchIs(rules, 2); }
    else if reply.status == 415 { FirstMatchIs(rules, 3); }
    else if reply.status == 401 { FirstMatchIs(rules, 4); }
    else if reply.status == 404 { FirstMatchIs(rules, 5); }
    else if Truthy(reply.message) { FirstMatchIs(rules, 6); }
    else if Truthy(reply.error) { FirstMatchIs(rules, 7); }
    else { FirstMatchIs(rules, 8); }
  }

  /** Every failure shows some message: the texts of the hook are non-empty, and a server or error message is used only when truthy. */
  lemma UploadErrorNonEmpty(e: Failure)
    ensures UploadErrorMessage(e) != ""
  {
    assert |CancelledMessage| > 0 && |TimeoutMessage| > 0 && |AuthenticationMessage| > 0;
    assert |NoResponseMessage| > 0 && |UploadFailedMessage| > 0;
  }

  /** The error the try block throws when the reply has no file. */
  function InvalidResponseError(): Failure
  {
    Failure("Error", "", Some(InvalidResponseMessage), None, false)
  }

  /** It reaches the catch block as an error with only a message, so that message is shown. */
  lemma InvalidResponseShowsItsMessage()
    ensures UploadErrorMessage(InvalidResponseError()) == InvalidResponseMessage
  {
    assert 't' !in InvalidResponseMessage;
    NotContainsWithoutFirstChar(InvalidResponseMessage, "timeout");
  }

  /** What `uploadFile` does before the request goes out. */
  datatype Begin = Refused(message: string) | Started(file: File)

  /** The hook's state: the three React state values and whether `abortControllerRef.current` is set. */
  class Uploader {
    var isUploading: bool
    var uploadProgress: nat
    var error: Option<string>
    var controllerActive: bool

    constructor ()
      ensures !isUploading && uploadProgress == 0 && error == None && !controllerActive
    {
      isUploading := false;
      uploadProgress := 0;
      error := None;
      controllerActive := false;
    }

    /**
     * The checks, in order: a blank conversation id, then `validateFile`.
     * A refusal only sets the error (and is thrown); otherwise the upload
     * starts with progress 0, no error and a controller.
     */
    method BeginUpload(conversationId: string, f: File) returns (b: Begin)
      modifies this
      ensures InvalidConversationId(conversationId) ==> b == Refused(InvalidIdMessage)
      ensures !InvalidConversationId(conversationId) && ValidateFile(f).Some? ==> b == Refused(ValidateFile(f).value)
      ensures !InvalidConversationId(conversationId) && ValidateFile(f).None? ==> b == Started(f)
      ensures b.Refused? ==>
        error == Some(b.message) && isUploading == old(isUploading)
        && uploadProgress == old(uploadProgress) && controllerActive == old(controllerActive)
      ensures b.Started? ==> isUploading && uploadProgress == 0 && error == None && controllerActive
    {
      if InvalidConversationId(conversationId) {
        error := Some(InvalidIdMessage);
        return Refused(InvalidIdMessage);
      }
      var validation := ValidateFile(f);
      if validation.Some? {
        error := validation;
        return Refused(validation.value);
      }
      isUploading := true;
      uploadProgress := 0;
      error := None;
      controllerActive := true;
      b := Started(f);
    }

    /** `onUploadProgress`: a report with a zero (or missing) total is ignored. */
    method OnUploadProgress(loaded: nat, total: nat)
      modifies this`uploadProgress
      ensures total != 0 ==> uploadProgress == ProgressPercent(loaded, total)
      ensures total == 0 ==> uploadProgress == old(uploadProgress)
    {
      if total != 0 {
        uploadProgress := ProgressPercent(loaded, total);
      }
    }

    /**
     * The request answered. With a file in the reply, uploading stops at
     * 100%; without one, the thrown "Invalid response from server" goes
     * through the catch block. Either way the controller is cleared.
     */
    method UploadAnswered(file: Option<UploadResult>) returns (r: Option<UploadResult>, thrown: Option<string>)
      modifies this
      ensures !isUploading && !controllerActive
      ensures file.Some? ==> r == file && thrown == None && uploadProgress == 100 && error == old(error)
      ensures file.None? ==>
        r == None && thrown == Some(InvalidResponseMessage) && error == thrown && uploadProgress == 0
    {
      isUploading := false;
      uploadProgress := 100;
      if file.None? {
        InvalidResponseShowsItsMessage();
        var message := UploadErrorMessage(InvalidResponseError());
        error := Some(message);
        isUploading := false;
        uploadProgress := 0;
        controllerActive := false;
        return None, Some(message);
      }
      controllerActive := false;
      r, thrown := file, None;
    }

    /** The request failed: the mapped message is stored and thrown, uploading stops at 0%, the controller is cleared. */
    method UploadFailed(e: Failure) returns (thrown: string)
      modifies this
      ensures thrown == UploadErrorMessage(e) && thrown != ""
      ensures error == Some(thrown) && !isUploading && uploadProgress == 0 && !controllerActive
    {
      UploadErrorNonEmpty(e);
      thrown := UploadErrorMessage(e);
      error := Some(thrown);
      isUploading := false;
      uploadProgress := 0;
      controllerActive := false;
    }

    /** `cancelUpload`: only with a controller present; it stays set until the request settles. */
    method CancelUpload()
      modifies this
      ensures old(controllerActive) ==>
        !isUploading && uploadProgress == 0 && error == Some(CancelledMessage) && controllerActive
      ensures !old(controllerActive) ==>
        isUploading == old(isUploading) && uploadProgress == old(uploadProgress)
        && error == old(error) && !controllerActive
    {
      if controllerActive {
        isUploading := false;
        uploadProgress := 0;
        error := Some(CancelledMessage);
      }
    }

    method ResetError()
      modifies this`error
      ensures error == None
    {
      error := None;
    }
  }
}
