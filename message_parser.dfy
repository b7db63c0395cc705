/** The step-by-step construction of an `Email` from a fetched message, as
    the adapter performs it: a scan of the flags for `\Seen`, one loop per
    address list, and a walk over the MIME parts that overwrites the body
    fields and appends attachment entries. Each method is proved to compute
    the mapping `Messages` specifies. */
module MessageParser {
  import opened Results
  import opened Text
  import opened Decimal
  import opened Messages

  /** Walks the parts the MIME reader yields, in order: an inline
      text/plain part replaces the plain body, an inline text/html part
      replaces the HTML body, an attachment with a file name is appended
      with its byte count. A reader error simply ends the walk, so the
      parts in `parts` are exactly those read before it. */
  method ProcessMessageParts(e: Email, parts: seq<Part>) returns (r: Email)
    ensures r == ApplyParts(e, parts)
    ensures r.bodyPlain == LastInline(parts, "text/plain", e.bodyPlain)
    ensures r.bodyHtml == LastInline(parts, "text/html", e.bodyHtml)
    ensures r.attachments == e.attachments + AttachmentsOf(parts)
    ensures r == e.(bodyPlain := r.bodyPlain, bodyHtml := r.bodyHtml, attachments := r.attachments)
  {
    r := e;
    var i := 0;
    while i < |parts|
      invariant 0 <= i <= |parts|
      invariant r == ApplyParts(e, parts[..i])
    {
      assert parts[..i + 1][..i] == parts[..i];
      match parts[i] {
        case InlinePart(ct, body) =>
          if HasPrefix(ct, "text/plain") {
            r := r.(bodyPlain := body);
          } else if HasPrefix(ct, "text/html") {
            r := r.(bodyHtml := body);
          }
        case AttachmentPart(name, _, content, _) =>
          if name != "" {
            r := r.(attachments := r.attachments + [Attachment(name, |content|)]);
          }
      }
      i := i + 1;
    }
    assert parts[..|parts|] == parts;
    ApplyPartsEffect(e, parts);
  }

  /** Reads one body literal into `e`: a missing literal, or one either
      mail reader rejects, leaves `e` as it is; otherwise the parts are
      walked and the snippet is taken from the plain body (trimmed), else
      from the subject when there is an HTML body, each cut to 200
      characters. */
  method ParseEmailBody(e: Email, literal: Option<Literal>) returns (r: Email)
    ensures literal.None? ==> r == e
    ensures literal.Some? ==> r == WithBody(e, literal.value)
    ensures |e.snippet| <= SnippetLimit ==> |r.snippet| <= SnippetLimit
  {
    r := e;
    if literal.None? {
      return;
    }
    match literal.value
    case Unreadable(_) =>
      return;
    case NotMime(_) =>
      return;
    case Mime(parts, _) =>
      r := ProcessMessageParts(r, parts);
      if r.bodyPlain != "" {
        var snippet := TrimSpace(r.bodyPlain);
        r := r.(snippet := Abbreviate(snippet));
      } else if r.bodyHtml != "" {
        r := r.(snippet := Abbreviate(r.subject));
      }
  }

  /** The displayed form of every address of a list, in order. */
  method FormatAddresses(addrs: seq<Address>) returns (r: seq<string>)
    ensures r == FormatAll(addrs)
  {
    r := [];
    for i := 0 to |addrs|
      invariant r == FormatAll(addrs[..i])
    {
      r := r + [FormatAddress(addrs[i])];
    }
    assert addrs[..|addrs|] == addrs;
  }

  /** Whether the flag list lacks `\Seen`, scanning until it is found. */
  method IsUnread(flags: seq<string>) returns (unread: bool)
    ensures unread <==> SeenFlag !in flags
  {
    unread := true;
    var i := 0;
    while i < |flags|
      invariant 0 <= i <= |flags|
      invariant unread <==> SeenFlag !in flags[..i]
      invariant !unread ==> SeenFlag in flags
    {
      if flags[i] == SeenFlag {
        unread := false;
        break;
      }
      i := i + 1;
      assert flags[..i] == flags[..i - 1] + [flags[i - 1]];
    }
  }

  /** Builds the `Email` for a fetched message: none without an envelope;
      otherwise the decimal UID as ID, the read state, the displayed
      addresses, Message-ID and In-Reply-To, then either the first body
      literal or, without a body fetch, the subject as snippet. */
  method ParseMessageData(msg: FetchedMessage, fetchBody: bool) returns (r: Option<Email>)
    ensures r == ToEmail(msg, fetchBody)
    ensures r.Some? <==> msg.envelope.Some?
    ensures r.Some? ==> (r.value.unread <==> SeenFlag !in msg.flags)
    ensures r.Some? ==> |r.value.snippet| <= SnippetLimit
  {
    if msg.envelope.None? {
      return None;
    }
    var env := msg.envelope.value;
    var unread := IsUnread(msg.flags);
    var email := Email(FormatNat(msg.uid), "", [], [], [], env.subject, env.date,
                       "", "", "", unread, [], "", []);
    if |env.from| > 0 {
      email := email.(from := FormatAddress(env.from[0]));
    }
    var to := FormatAddresses(env.to);
    email := email.(to := to);
    var cc := FormatAddresses(env.cc);
    email := email.(cc := cc);
    var bcc := FormatAddresses(env.bcc);
    email := email.(bcc := bcc);
    email := email.(messageId := env.messageId);
    if env.inReplyTo != "" {
      email := email.(references := email.references + [env.inReplyTo]);
    }
    assert email == HeaderEmail(msg.uid, env, msg.flags);
    if fetchBody {
      email := ParseEmailBody(email, msg.body);
    } else {
      email := email.(snippet := Abbreviate(email.subject));
    }
    r := Some(email);
    ToEmailSnippet(msg, fetchBody);
    ToEmailHeaders(msg, fetchBody);
  }

  /** Walks the parts looking for the attachment named `filename`: the
      first one found is returned with its content, a reader error met
      before it ends the walk with that error, and reaching the end gives
      "not found". */
  method SearchParts(parts: seq<Part>, failure: Option<string>, filename: string) returns (r: Result<AttachmentData>)
    ensures r == FindAttachment(parts, failure, filename)
  {
    var i := 0;
    while i < |parts|
      invariant 0 <= i <= |parts|
      invariant FindAttachment(parts[i..], failure, filename) == FindAttachment(parts, failure, filename)
    {
      match parts[i] {
        case AttachmentPart(name, contentType, content, readError) =>
          if name == filename {
            if readError.Some? {
              return Err("failed to read attachment content: " + readError.value);
            }
            return Ok(AttachmentData(name, content, contentType, |content|));
          }
        case InlinePart(_, _) =>
      }
      assert parts[i..][1..] == parts[i + 1..];
      i := i + 1;
    }
    if failure.Some? {
      return Err("failed to read message part: " + failure.value);
    }
    r := Err("attachment '" + filename + "' not found in email");
  }
}
