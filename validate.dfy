/** The input validators of the tool layer. Each returns `None` when the
    input is accepted and `Some(message)` with the text reported to the
    caller otherwise; the checks run in a fixed order, so the message
    names the first rule broken. */
module Validation {
  import opened Results
  import opened Text

  /** The largest body accepted: 10 MiB. */
  const MaxBodySize: nat := 10 * 1024 * 1024

  /** The longest subject accepted: the 998-character line limit of
      section 2.1.1 of RFC 2822. */
  const MaxSubjectSize: nat := 998

  /** Whether some character of `s` is below the space character (or is
      DEL, when `delToo` holds). */
  predicate HasControl(s: string, delToo: bool)
  {
    exists i :: 0 <= i < |s| && (s[i] < ' ' || (delToo && s[i] == '\U{7F}'))
  }

  /** A save path: empty (no file is written), or free of NUL and "..",
      and absolute. A cleaned path is absolute exactly when the path
      starts with "/". */
  function ValidateSavePath(path: string): (r: Option<string>)
    ensures r.None? <==> path == "" || ('\0' !in path && !Contains(path, "..") && path[0] == '/')
    ensures path != "" && '\0' in path ==> r == Some("save_path must not contain null bytes")
    ensures '\0' !in path && Contains(path, "..") ==> r == Some("save_path must not contain path traversal (..)")
    ensures r.Some? && '\0' !in path && !Contains(path, "..") ==> r == Some("save_path must be an absolute path")
  {
    if path == "" then None
    else if '\0' in path then Some("save_path must not contain null bytes")
    else if Contains(path, "..") then Some("save_path must not contain path traversal (..)")
    else if path[0] != '/' then Some("save_path must be an absolute path")
    else None
  }

  /** A folder name: non-empty, without NUL, "..", the IMAP wildcards `*`
      and `%`, or any other control character. */
  function ValidateFolderName(name: string): (r: Option<string>)
    ensures r.None? <==>
      name != "" && !Contains(name, "..") && '*' !in name && '%' !in name && !HasControl(name, false)
    ensures name == "" ==> r == Some("folder name must not be empty")
    ensures name != "" && '\0' in name ==> r == Some("folder name must not contain null bytes")
  {
    if name == "" then Some("folder name must not be empty")
    else if '\0' in name then Some("folder name must not contain null bytes")
    else if Contains(name, "..") then Some("folder name must not contain '..'")
    else if '*' in name || '%' in name then Some("folder name must not contain wildcards (* or %)")
    else if HasControl(name, false) then Some("folder name must not contain control characters")
    else None
  }

  /** An e-mail ID: non-empty and without control characters or DEL. It
      is not required to be numeric. */
  function ValidateEmailId(id: string): (r: Option<string>)
    ensures r.None? <==> id != "" && forall i :: 0 <= i < |id| ==> ' ' <= id[i] && id[i] != '\U{7F}'
    ensures id == "" ==> r == Some("email_id is required")
    ensures id != "" && r.Some? ==> r == Some("email_id contains invalid characters")
  {
    if id == "" then Some("email_id is required")
    else if HasControl(id, true) then Some("email_id contains invalid characters")
    else None
  }

  /** A body of at most `MaxBodySize` characters. */
  function ValidateBodySize(body: string): (r: Option<string>)
    ensures r.None? <==> |body| <= MaxBodySize
    ensures r.Some? ==> r.value == "body exceeds maximum size of 10485760 bytes"
  {
    if |body| > MaxBodySize then Some("body exceeds maximum size of 10485760 bytes") else None
  }

  /** A subject of at most `MaxSubjectSize` characters. */
  function ValidateSubjectSize(subject: string): (r: Option<string>)
    ensures r.None? <==> |subject| <= MaxSubjectSize
    ensures r.Some? ==> r.value == "subject exceeds maximum length of 998 characters"
  {
    if |subject| > MaxSubjectSize then Some("subject exceeds maximum length of 998 characters") else None
  }

  /** An attachment file name: non-empty, without NUL, path separators or
      "..". */
  function ValidateFilename(name: string): (r: Option<string>)
    ensures r.None? <==> name != "" && '\0' !in name && '/' !in name && '\\' !in name && !Contains(name, "..")
    ensures name == "" ==> r == Some("filename is required")
    ensures name != "" && '\0' in name ==> r == Some("filename must not contain null bytes")
    ensures name != "" && '\0' !in name && ('/' in name || '\\' in name) ==> r == Some("filename must not contain path separators")
  {
    if name == "" then Some("filename is required")
    else if '\0' in name then Some("filename must not contain null bytes")
    else if '/' in name || '\\' in name then Some("filename must not contain path separators")
    else if Contains(name, "..") then Some("filename must not contain '..'")
    else None
  }

  /** An accepted file name is a single path component: it cannot leave
      the directory it is saved in. */
  lemma AcceptedFilenameIsComponent(name: string)
    requires ValidateFilename(name).None?
    ensures forall i :: 0 <= i < |name| ==> name[i] != '/' && name[i] != '\\' && name[i] != '\0'
    ensures name != ".."
  {
    assert OccursAt("..", "..", 0);
    OccursContains("..", "..", 0);
  }

  /** An accepted folder name never spans lines. */
  lemma AcceptedFolderNameIsOneLine(name: string)
    requires ValidateFolderName(name).None?
    ensures '\n' !in name && '\r' !in name && '\0' !in name
  {
    forall i | 0 <= i < |name|
      ensures name[i] != '\n' && name[i] != '\r' && name[i] != '\0'
    {
      assert !(name[i] < ' ');
    }
  }

  /** An accepted e-mail ID has no control character, DEL included. */
  lemma AcceptedIdHasNoControl(id: string)
    requires ValidateEmailId(id).None?
    ensures !HasControl(id, true) && !HasControl(id, false)
  {
  }
}
