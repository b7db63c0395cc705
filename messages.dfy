/** The message values the mailbox adapter works with: what the IMAP server
    delivers for a fetched message (envelope, flags, body literal), the
    MIME parts the body literal yields, and the `Email` record the adapter
    builds from them. The functions here specify how a fetched message
    becomes an `Email`; the methods that do it step by step live in
    `MessageParser`. */
module Messages {
  import opened Results
  import opened Text
  import opened Decimal

  type Byte = b: int | 0 <= b < 256

  /** The system flag that marks a message as read. */
  const SeenFlag: string := "\\Seen"

  /** The snippet and preview length cut. */
  const SnippetLimit: nat := 200

  datatype Address = Address(personalName: string, mailboxName: string, hostName: string)

  datatype Envelope = Envelope(
    date: int,
    subject: string,
    from: seq<Address>,
    to: seq<Address>,
    cc: seq<Address>,
    bcc: seq<Address>,
    inReplyTo: string,
    messageId: string)

  /** One part yielded by the MIME reader. `contentType` is the parsed media
      type; `content` is what can be read from the part's body, and
      `readError` is the error reading stops with, if any. */
  datatype Part =
    | InlinePart(contentType: string, body: string)
    | AttachmentPart(filename: string, contentType: string, content: seq<Byte>, readError: Option<string>)

  /** A body literal as the mail readers see it: one the RFC 5322 reader
      rejects, one the MIME reader rejects, or the parts the MIME reader
      produces before it reports the end of the message (`failure == None`)
      or an error. */
  datatype Literal =
    | Unreadable(err: string)
    | NotMime(err: string)
    | Mime(parts: seq<Part>, failure: Option<string>)

  /** A message as the server delivers it for a fetch; items that were not
      requested are absent (`None`, or no flags). */
  datatype FetchedMessage = FetchedMessage(
    uid: nat,
    envelope: Option<Envelope>,
    flags: seq<string>,
    body: Option<Literal>)

  datatype Attachment = Attachment(filename: string, size: nat)

  datatype AttachmentData = AttachmentData(filename: string, content: seq<Byte>, mimeType: string, size: nat)

  datatype Email = Email(
    id: string,
    from: string,
    to: seq<string>,
    cc: seq<string>,
    bcc: seq<string>,
    subject: string,
    date: int,
    bodyPlain: string,
    bodyHtml: string,
    snippet: string,
    unread: bool,
    attachments: seq<Attachment>,
    messageId: string,
    references: seq<string>)

  /** An address as the adapter displays it: "Name <mailbox@host>" when the
      address carries a personal name, "mailbox@host" otherwise. */
  function FormatAddress(a: Address): string
  {
    if a.personalName != "" then a.personalName + " <" + a.mailboxName + "@" + a.hostName + ">"
    else a.mailboxName + "@" + a.hostName
  }

  /** The displayed address always contains the bare `mailbox@host`, after
      the personal name when there is one. */
  lemma FormatAddressShape(a: Address)
    ensures OccursAt(FormatAddress(a), a.mailboxName + "@" + a.hostName,
                     if a.personalName != "" then |a.personalName| + 2 else 0)
    ensures a.personalName != "" ==> HasPrefix(FormatAddress(a), a.personalName + " <")
    ensures a.personalName == "" ==> FormatAddress(a) == a.mailboxName + "@" + a.hostName
  {
    var bare := a.mailboxName + "@" + a.hostName;
    if a.personalName != "" {
      var r := FormatAddress(a);
      var k := |a.personalName| + 2;
      assert r == (a.personalName + " <") + bare + ">";
      assert r[k..k + |bare|] == bare;
      assert r[..k] == a.personalName + " <";
    } else {
      assert FormatAddress(a)[0..|bare|] == bare;
    }
  }

  /** Every address of a list, displayed, in order. */
  function FormatAll(addrs: seq<Address>): (r: seq<string>)
    ensures |r| == |addrs|
    ensures forall i :: 0 <= i < |addrs| ==> r[i] == FormatAddress(addrs[i])
  {
    seq(|addrs|, i requires 0 <= i < |addrs| => FormatAddress(addrs[i]))
  }

  /** The `Email` made from the envelope and flags of a message, before any
      body processing: no body, no snippet, no attachments. */
  function HeaderEmail(uid: nat, env: Envelope, flags: seq<string>): Email
  {
    Email(
      id := FormatNat(uid),
      from := if |env.from| > 0 then FormatAddress(env.from[0]) else "",
      to := FormatAll(env.to),
      cc := FormatAll(env.cc),
      bcc := FormatAll(env.bcc),
      subject := env.subject,
      date := env.date,
      bodyPlain := "",
      bodyHtml := "",
      snippet := "",
      unread := SeenFlag !in flags,
      attachments := [],
      messageId := env.messageId,
      references := if env.inReplyTo != "" then [env.inReplyTo] else [])
  }

  /** The effect of one MIME part on the email being filled in: an inline
      text/plain or text/html part sets the matching body, an attachment
      with a file name adds an entry with its byte count, anything else is
      ignored. */
  function ApplyPart(e: Email, p: Part): Email
  {
    match p
    case InlinePart(ct, body) =>
      if HasPrefix(ct, "text/plain") then e.(bodyPlain := body)
      else if HasPrefix(ct, "text/html") then e.(bodyHtml := body)
      else e
    case AttachmentPart(name, _, content, _) =>
      if name != "" then e.(attachments := e.attachments + [Attachment(name, |content|)])
      else e
  }

  /** The parts applied in the order the reader yields them. */
  function ApplyParts(e: Email, parts: seq<Part>): Email
    decreases |parts|
  {
    if parts == [] then e else ApplyPart(ApplyParts(e, parts[..|parts| - 1]), parts[|parts| - 1])
  }

  /** The snippet once the body is known: the trimmed plain body, else the
      subject when there is only an HTML body, each cut to 200 characters;
      with neither body the snippet is left as it was. */
  function BodySnippet(e: Email): string
  {
    if e.bodyPlain != "" then Abbreviate(TrimSpace(e.bodyPlain))
    else if e.bodyHtml != "" then Abbreviate(e.subject)
    else e.snippet
  }

  /** What reading a body literal does to the email: a literal either mail
      reader rejects leaves it unchanged; otherwise the parts are applied
      (those read before any part error) and the snippet is set. */
  function WithBody(e: Email, lit: Literal): Email
  {
    match lit
    case Unreadable(_) => e
    case NotMime(_) => e
    case Mime(parts, _) =>
      var filled := ApplyParts(e, parts);
      filled.(snippet := BodySnippet(filled))
  }

  /** The whole mapping of a fetched message: none without an envelope;
      with a body fetch the first body literal is read, without one the
      snippet is the subject cut to 200 characters. */
  function ToEmail(m: FetchedMessage, fetchBody: bool): (r: Option<Email>)
    ensures r.Some? <==> m.envelope.Some?
  {
    if m.envelope.None? then None
    else
      var e := HeaderEmail(m.uid, m.envelope.value, m.flags);
      if !fetchBody then Some(e.(snippet := Abbreviate(e.subject)))
      else if m.body.None? then Some(e)
      else Some(WithBody(e, m.body.value))
  }

  // ---------------------------------------------------------------------
  // Independent descriptions of the part walk.

  /** The body of the last inline part whose media type starts with
      `prefix` and is not claimed by an earlier rule (`text/plain` is matched
      before `text/html`), or `prior` when there is none. */
  function LastInline(parts: seq<Part>, prefix: string, prior: string): string
    decreases |parts|
  {
    if parts == [] then prior
    else
      var p := parts[|parts| - 1];
      if p.InlinePart? && HasPrefix(p.contentType, prefix)
         && (prefix == "text/plain" || !HasPrefix(p.contentType, "text/plain"))
      then p.body
      else LastInline(parts[..|parts| - 1], prefix, prior)
  }

  predicate IsNamedAttachment(p: Part)
  {
    p.AttachmentPart? && p.filename != ""
  }

  /** The attachment entries for the named attachment parts, in order. */
  function AttachmentsOf(parts: seq<Part>): (r: seq<Attachment>)
    ensures |r| <= |parts|
    decreases |parts|
  {
    if parts == [] then []
    else
      var p := parts[|parts| - 1];
      AttachmentsOf(parts[..|parts| - 1])
      + (if IsNamedAttachment(p) then [Attachment(p.filename, |p.content|)] else [])
  }

  /** The part walk in closed form: the last plain part wins, the last HTML
      part wins, named attachments are appended in order, and nothing else
      changes. */
  lemma {:induction false} ApplyPartsEffect(e: Email, parts: seq<Part>)
    ensures ApplyParts(e, parts) == e.(
      bodyPlain := LastInline(parts, "text/plain", e.bodyPlain),
      bodyHtml := LastInline(parts, "text/html", e.bodyHtml),
      attachments := e.attachments + AttachmentsOf(parts))
    decreases |parts|
  {
    if parts != [] {
      ApplyPartsEffect(e, parts[..|parts| - 1]);
    }
  }

  /** An attachment entry exists for a part exactly when it is an attachment
      with a file name; its size is the part's byte count. */
  lemma {:induction false} AttachmentsOfMembers(parts: seq<Part>, a: Attachment)
    ensures a in AttachmentsOf(parts) <==>
      exists i :: 0 <= i < |parts| && IsNamedAttachment(parts[i])
        && a == Attachment(parts[i].filename, |parts[i].content|)
    decreases |parts|
  {
    if parts != [] {
      var init := parts[..|parts| - 1];
      AttachmentsOfMembers(init, a);
      forall i | 0 <= i < |init| ensures init[i] == parts[i] { }
    }
  }

  /** No attachment entry has an empty file name. */
  lemma {:induction false} AttachmentsNamed(parts: seq<Part>)
    ensures forall a :: a in AttachmentsOf(parts) ==> a.filename != ""
    decreases |parts|
  {
    if parts != [] {
      AttachmentsNamed(parts[..|parts| - 1]);
    }
  }

  // ---------------------------------------------------------------------
  // Properties of the mapping.

  /** The envelope-derived fields: the ID is the decimal UID, which scans
      back to the UID; the email is unread iff `\Seen` is absent; From is
      the first sender displayed (or ""); To, CC and BCC keep order and
      length; References holds In-Reply-To iff that is non-empty. */
  lemma ToEmailHeaders(m: FetchedMessage, fetchBody: bool)
    requires m.envelope.Some?
    ensures var e := ToEmail(m, fetchBody).value;
      var env := m.envelope.value;
      && e.id == FormatNat(m.uid) && (m.uid < Uint32Limit ==> ScanUint32(e.id) == Ok(m.uid))
      && (e.unread <==> SeenFlag !in m.flags)
      && (|env.from| == 0 ==> e.from == "")
      && (|env.from| > 0 ==> e.from == FormatAddress(env.from[0]))
      && |e.to| == |env.to| && |e.cc| == |env.cc| && |e.bcc| == |env.bcc|
      && (forall i :: 0 <= i < |env.to| ==> e.to[i] == FormatAddress(env.to[i]))
      && (forall i :: 0 <= i < |env.cc| ==> e.cc[i] == FormatAddress(env.cc[i]))
      && (forall i :: 0 <= i < |env.bcc| ==> e.bcc[i] == FormatAddress(env.bcc[i]))
      && e.subject == env.subject && e.messageId == env.messageId
      && (e.references == [env.inReplyTo] <==> env.inReplyTo != "")
      && (e.references == [] <==> env.inReplyTo == "")
  {
    ToEmailKeepsHeaders(m, fetchBody);
    HeaderEmailFields(m.uid, m.envelope.value, m.flags);
  }

  /** The fields that come from the envelope and flags alone. */
  predicate SameHeaders(a: Email, b: Email)
  {
    a.id == b.id && a.from == b.from && a.to == b.to && a.cc == b.cc && a.bcc == b.bcc
    && a.subject == b.subject && a.date == b.date && a.unread == b.unread
    && a.messageId == b.messageId && a.references == b.references
  }

  /** Body processing touches only the bodies, snippet and attachments. */
  lemma ToEmailKeepsHeaders(m: FetchedMessage, fetchBody: bool)
    requires m.envelope.Some?
    ensures SameHeaders(ToEmail(m, fetchBody).value, HeaderEmail(m.uid, m.envelope.value, m.flags))
  {
    var e := HeaderEmail(m.uid, m.envelope.value, m.flags);
    if fetchBody && m.body.Some? && m.body.value.Mime? {
      ApplyPartsEffect(e, m.body.value.parts);
    }
  }

  lemma HeaderEmailFields(uid: nat, env: Envelope, flags: seq<string>)
    ensures var e := HeaderEmail(uid, env, flags);
      && e.id == FormatNat(uid) && (uid < Uint32Limit ==> ScanUint32(e.id) == Ok(uid))
      && (e.unread <==> SeenFlag !in flags)
      && (|env.from| == 0 ==> e.from == "")
      && (|env.from| > 0 ==> e.from == FormatAddress(env.from[0]))
      && |e.to| == |env.to| && |e.cc| == |env.cc| && |e.bcc| == |env.bcc|
      && (forall i :: 0 <= i < |env.to| ==> e.to[i] == FormatAddress(env.to[i]))
      && (forall i :: 0 <= i < |env.cc| ==> e.cc[i] == FormatAddress(env.cc[i]))
      && (forall i :: 0 <= i < |env.bcc| ==> e.bcc[i] == FormatAddress(env.bcc[i]))
      && e.subject == env.subject && e.messageId == env.messageId
      && (e.references == [env.inReplyTo] <==> env.inReplyTo != "")
      && (e.references == [] <==> env.inReplyTo == "")
  {
    if uid < Uint32Limit {
      ScanFormatted(uid, "");
      assert FormatNat(uid) + "" == FormatNat(uid);
    }
  }

  /** Snippets never exceed 200 characters. Without a body fetch the
      snippet is the subject, cut; with one it is the trimmed plain body,
      else the subject when only an HTML body exists, else empty. */
  lemma ToEmailSnippet(m: FetchedMessage, fetchBody: bool)
    requires m.envelope.Some?
    ensures |ToEmail(m, fetchBody).value.snippet| <= SnippetLimit
    ensures !fetchBody ==> ToEmail(m, fetchBody).value.snippet == Abbreviate(m.envelope.value.subject)
    ensures fetchBody && m.body.Some? && m.body.value.Mime? ==>
      var e := ToEmail(m, fetchBody).value;
      && (e.bodyPlain != "" ==> e.snippet == Abbreviate(TrimSpace(e.bodyPlain)))
      && (e.bodyPlain == "" && e.bodyHtml != "" ==> e.snippet == Abbreviate(e.subject))
      && (e.bodyPlain == "" && e.bodyHtml == "" ==> e.snippet == "")
    ensures fetchBody && (m.body.None? || !m.body.value.Mime?) ==>
      var e := ToEmail(m, fetchBody).value;
      e.snippet == "" && e.bodyPlain == "" && e.bodyHtml == "" && e.attachments == []
  {
    var e := HeaderEmail(m.uid, m.envelope.value, m.flags);
    if fetchBody && m.body.Some? && m.body.value.Mime? {
      ApplyPartsEffect(e, m.body.value.parts);
    }
  }

  /** With a body fetch, the bodies and attachments are those the part walk
      describes, whether or not the reader stopped on an error. */
  lemma ToEmailBody(m: FetchedMessage, parts: seq<Part>, failure: Option<string>)
    requires m.envelope.Some? && m.body == Some(Mime(parts, failure))
    ensures ToEmail(m, true).value.bodyPlain == LastInline(parts, "text/plain", "")
    ensures ToEmail(m, true).value.bodyHtml == LastInline(parts, "text/html", "")
    ensures ToEmail(m, true).value.attachments == AttachmentsOf(parts)
  {
    ApplyPartsEffect(HeaderEmail(m.uid, m.envelope.value, m.flags), parts);
  }

  // ---------------------------------------------------------------------
  // Looking up one attachment by name.

  /** The first attachment part whose file name is `filename`, read in
      full; a part error met before it, a read error on it, or the end of
      the parts each give their own error. */
  function FindAttachment(parts: seq<Part>, failure: Option<string>, filename: string): (r: Result<AttachmentData>)
    ensures r.Ok? ==> r.value.filename == filename && r.value.size == |r.value.content|
    decreases |parts|
  {
    if parts == [] then
      if failure.Some? then Err("failed to read message part: " + failure.value)
      else Err("attachment '" + filename + "' not found in email")
    else
      var p := parts[0];
      if p.AttachmentPart? && p.filename == filename then
        if p.readError.Some? then Err("failed to read attachment content: " + p.readError.value)
        else Ok(AttachmentData(p.filename, p.content, p.contentType, |p.content|))
      else FindAttachment(parts[1..], failure, filename)
  }

  /** The index of the first attachment part named `filename`. */
  predicate FirstAttachmentAt(parts: seq<Part>, filename: string, k: int)
  {
    0 <= k < |parts| && parts[k].AttachmentPart? && parts[k].filename == filename
    && forall j :: 0 <= j < k ==> !(parts[j].AttachmentPart? && parts[j].filename == filename)
  }

  /** The lookup returns the first part with the requested name and its
      content, and reports "not found" only when no attachment part has
      that name and the reader reached the end cleanly. */
  lemma {:induction false} FindAttachmentFirst(parts: seq<Part>, failure: Option<string>, filename: string, k: int)
    requires FirstAttachmentAt(parts, filename, k)
    requires parts[k].readError.None?
    ensures FindAttachment(parts, failure, filename)
      == Ok(AttachmentData(filename, parts[k].content, parts[k].contentType, |parts[k].content|))
    decreases |parts|
  {
    if k > 0 {
      assert FirstAttachmentAt(parts[1..], filename, k - 1) by {
        forall j | 0 <= j < k - 1 ensures parts[1..][j] == parts[j + 1] { }
      }
      FindAttachmentFirst(parts[1..], failure, filename, k - 1);
    }
  }

  lemma {:induction false} FindAttachmentMissing(parts: seq<Part>, filename: string)
    requires forall j :: 0 <= j < |parts| ==> !(parts[j].AttachmentPart? && parts[j].filename == filename)
    ensures FindAttachment(parts, None, filename) == Err("attachment '" + filename + "' not found in email")
    decreases |parts|
  {
    if parts != [] {
      assert forall j :: 0 <= j < |parts| - 1 ==> parts[1..][j] == parts[j + 1];
      FindAttachmentMissing(parts[1..], filename);
    }
  }
}
