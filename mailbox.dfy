/** What the mailbox adapter asks of the IMAP server, operation by
    operation, and what it reports back.

    Each adapter operation is specified as a function from the server state
    before the call to the server state after it and the operation's
    result, composed of the backend's command steps in the order the adapter
    issues them. The `MailClient` module holds the object whose methods are
    proved to follow these functions; the lemmas in `MailboxFacts` state
    what the operations promise. */
module Mailbox {
  import opened Results
  import opened Text
  import opened Decimal
  import opened Messages
  import opened Threading
  import opened ImapBackend

  const SecondsPerDay: int := 86400
  const TrashFolder: string := "Deleted Messages"
  const AlternateTrash: string := "Trash"

  /** The folders a draft may go to, in order of preference. */
  const DraftFolders: seq<string> := ["Drafts", "INBOX.Drafts", "[Gmail]/Drafts"]

  /** What a search fetches per message, and what a full fetch adds. */
  const SummaryItems: seq<FetchItem> := [EnvelopeItem, FlagsItem, UidItem]
  const MessageItems: seq<FetchItem> := [EnvelopeItem, FlagsItem, UidItem, BodySectionItem]

  /** Search filters; times are seconds on the clock `now` is read from. */
  datatype Filters = Filters(
    lastDays: int,
    since: Option<int>,
    before: Option<int>,
    unreadOnly: bool,
    limit: int,
    offset: int)

  /** The zero value of the filter record: no condition at all. */
  const NoFilters: Filters := Filters(0, None, None, false, 0, 0)

  /** One page of search results and the number of all matches. */
  datatype Page = Page(emails: seq<Email>, total: nat)

  datatype DraftOptions = DraftOptions(
    cc: seq<string>,
    bcc: seq<string>,
    html: bool,
    replyToId: string,
    folder: string)

  /** The three results of a folder deletion. */
  datatype FolderDeletion = FolderDeletion(wasEmpty: bool, count: nat, err: Option<string>)

  // ---------------------------------------------------------------------
  // Search criteria and the result window.

  /** The SEARCH criteria for a set of filters: an explicit `Since` wins
      over `LastDays`, which counts back whole days from `now`; `Before` is
      passed on; unread-only excludes `\Seen`; a non-empty query is a text
      condition. */
  function BuildCriteria(f: Filters, now: int, query: string): (c: Criteria)
    ensures c.before == f.before
    ensures f.since.Some? ==> c.since == f.since
  {
    Criteria(
      if f.since.Some? then f.since
      else if f.lastDays > 0 then Some(now - f.lastDays * SecondsPerDay)
      else None,
      f.before,
      if f.unreadOnly then [SeenFlag] else [],
      if query != "" then [query] else [])
  }

  /** The UIDs of a search result that are fetched: the most recent ones,
      skipping the newest `offset` (when positive) and keeping at most
      `limit` (when positive). Empty exactly when there is nothing to
      fetch. */
  function Window(uids: seq<nat>, offset: int, limit: int): (w: seq<nat>)
  {
    if |uids| == 0 || offset >= |uids| then []
    else
      var kept := if offset > 0 then uids[..|uids| - offset] else uids;
      if limit > 0 && |kept| > limit then kept[|kept| - limit..] else kept
  }

  /** The e-mails a list of fetched messages yields, in order; messages
      without an envelope are skipped. */
  function Summaries(msgs: seq<FetchedMessage>): (r: seq<Email>)
    ensures |r| <= |msgs|
    ensures forall e :: e in r ==> |e.snippet| <= SnippetLimit
  {
    if msgs == [] then []
    else
      var prior := Summaries(msgs[..|msgs| - 1]);
      var last := msgs[|msgs| - 1];
      if last.envelope.None? then prior
      else
        ToEmailSnippet(last, false);
        match ToEmail(last, false)
        case None => prior
        case Some(e) => prior + [e]
  }

  // ---------------------------------------------------------------------
  // Flag keywords.

  const NoneFlags: seq<string> := [
    FlaggedFlag, "$FollowUp", "$Important", "$Deadline", "$FlagRed",
    "$FlagOrange", "$FlagYellow", "$FlagGreen", "$FlagBlue", "$FlagPurple"]

  function TypeKeyword(flagType: string): Option<string>
  {
    if flagType == "follow-up" then Some("$FollowUp")
    else if flagType == "important" then Some("$Important")
    else if flagType == "deadline" then Some("$Deadline")
    else None
  }

  function ColorKeyword(color: string): Option<string>
  {
    if color == "red" then Some("$FlagRed")
    else if color == "orange" then Some("$FlagOrange")
    else if color == "yellow" then Some("$FlagYellow")
    else if color == "green" then Some("$FlagGreen")
    else if color == "blue" then Some("$FlagBlue")
    else if color == "purple" then Some("$FlagPurple")
    else None
  }

  /** The keywords a flag type other than "none" sets: `\Flagged`, the
      type's keyword and, when a colour is given, the colour's keyword. An
      unknown type is reported before an unknown colour. */
  function FlagKeywords(flagType: string, color: string): (r: Result<seq<string>>)
    ensures r.Ok? <==> TypeKeyword(flagType).Some? && (color == "" || ColorKeyword(color).Some?)
    ensures r.Ok? ==> |r.value| == (if color == "" then 2 else 3) && r.value[0] == FlaggedFlag
    ensures r.Ok? ==> forall k :: k in r.value ==> k in NoneFlags
    ensures TypeKeyword(flagType).None? ==> r == Err("invalid flag type: " + flagType)
    ensures TypeKeyword(flagType).Some? && color != "" && ColorKeyword(color).None? ==>
      r == Err("invalid color: " + color)
  {
    match TypeKeyword(flagType)
    case None => Err("invalid flag type: " + flagType)
    case Some(kw) =>
      if color == "" then Ok([FlaggedFlag, kw])
      else match ColorKeyword(color)
        case None => Err("invalid color: " + color)
        case Some(ck) => Ok([FlaggedFlag, kw, ck])
  }

  // ---------------------------------------------------------------------
  // Folders and drafts.

  /** The path of a new folder: under `parent` when one is given. */
  function FolderPath(name: string, parent: string): (p: string)
    ensures parent == "" ==> p == name
    ensures parent != "" ==> HasPrefix(p, parent + "/") && p[|parent| + 1..] == name
  {
    if parent != "" then parent + "/" + name else name
  }

  /** The first of the preferred draft folders that is listed, or "Drafts"
      when none is. */
  function ChooseDraftFolder(names: seq<string>): (d: string)
    ensures d in DraftFolders
    ensures d in names || forall c :: c in DraftFolders ==> c !in names
    ensures forall k :: 0 <= k < |DraftFolders| && DraftFolders[k] == d ==>
      forall j :: 0 <= j < k ==> DraftFolders[j] !in names
  {
    if "Drafts" in names then "Drafts"
    else if "INBOX.Drafts" in names then "INBOX.Drafts"
    else if "[Gmail]/Drafts" in names then "[Gmail]/Drafts"
    else "Drafts"
  }

  /** The folder the message a draft replies to is read from. */
  function ReplyFolder(folder: string): string
  {
    if folder == "" then "INBOX" else folder
  }

  datatype Header = Header(name: string, value: string)

  /** Header lines as written, each ended by CR LF. */
  function RenderHeaders(hs: seq<Header>): string
  {
    if hs == [] then ""
    else RenderHeaders(hs[..|hs| - 1]) + hs[|hs| - 1].name + ": " + hs[|hs| - 1].value + "\r\n"
  }

  function Names(hs: seq<Header>): (r: seq<string>)
    ensures |r| == |hs| && forall i :: 0 <= i < |hs| ==> r[i] == hs[i].name
  {
    seq(|hs|, i requires 0 <= i < |hs| => hs[i].name)
  }

  function DraftMessageId(uuid: string, username: string): string
  {
    "<" + uuid + "." + username + "@mcp-icloud-email>"
  }

  /** The subject of a draft: the reply subject of the original when the
      draft answers one, else the subject given. */
  function DraftSubject(subject: string, orig: Option<Email>): string
  {
    if orig.Some? then ReplySubject(orig.value.subject) else subject
  }

  /** The threading headers of a reply draft, present only when the
      original has a Message-ID. */
  function ReplyHeaders(orig: Option<Email>): seq<Header>
  {
    if orig.Some? && orig.value.messageId != "" then
      [Header("In-Reply-To", orig.value.messageId),
       Header("References", ReferencesChain(orig.value.references, orig.value.messageId))]
    else []
  }

  function ContentTypeOf(html: bool): string
  {
    if html then "text/html; charset=utf-8" else "text/plain; charset=utf-8"
  }

  /** The header block of a draft, in the order it is written. */
  function DraftHeaders(from: string, to: seq<string>, subject: string, opts: DraftOptions,
                        orig: Option<Email>, dateText: string, messageId: string): seq<Header>
  {
    [Header("From", from), Header("To", Join(to, ", "))]
    + (if |opts.cc| > 0 then [Header("Cc", Join(opts.cc, ", "))] else [])
    + (if |opts.bcc| > 0 then [Header("Bcc", Join(opts.bcc, ", "))] else [])
    + ReplyHeaders(orig)
    + [Header("Subject", DraftSubject(subject, orig)),
       Header("Date", dateText),
       Header("Message-ID", messageId),
       Header("Content-Type", ContentTypeOf(opts.html))]
  }

  /** The text of a draft: the headers, a blank line, the body. */
  function DraftText(from: string, to: seq<string>, subject: string, body: string, opts: DraftOptions,
                     orig: Option<Email>, dateText: string, messageId: string): string
  {
    RenderHeaders(DraftHeaders(from, to, subject, opts, orig, dateText, messageId)) + "\r\n" + body
  }

  // ---------------------------------------------------------------------
  // The operations.

  /** Selects `folder` and reads the UID out of `id`, the opening of every
      single-message operation. Only a SELECT is issued. */
  function Locate(st: ServerState, folder: string, id: string): (ServerState, Result<nat>)
  {
    var (s1, sel) := SelectStep(st, folder);
    if sel.Err? then (s1, Err("failed to select folder " + folder + ": " + sel.msg))
    else match ScanUint32(id)
      case Err(e) => (s1, Err("invalid email ID format: " + e))
      case Ok(uid) => (s1, Ok(uid))
  }

  function ListOp(st: ServerState): (ServerState, Result<seq<string>>)
  {
    var (s1, r) := ListStep(st);
    if r.Err? then (s1, Err("failed to list folders: " + r.msg)) else (s1, r)
  }

  function SearchOp(st: ServerState, folder: string, query: string, f: Filters, now: int): (ServerState, Result<Page>)
  {
    var (s1, sel) := SelectStep(st, folder);
    if sel.Err? then (s1, Err("failed to select folder " + folder + ": " + sel.msg))
    else
      var (s2, found) := SearchStep(s1, BuildCriteria(f, now, query));
      if found.Err? then (s2, Err("failed to search emails: " + found.msg))
      else
        var w := Window(found.value, f.offset, f.limit);
        if w == [] then (s2, Ok(Page([], |found.value|)))
        else
          var (s3, msgs, err) := FetchStep(s2, w, SummaryItems);
          if err.Some? then (s3, Err("failed to fetch messages: " + err.value))
          else (s3, Ok(Page(Summaries(msgs), |found.value|)))
  }

  function GetEmailOp(st: ServerState, folder: string, id: string): (ServerState, Result<Email>)
  {
    var (s1, loc) := Locate(st, folder, id);
    if loc.Err? then (s1, Err(loc.msg))
    else
      var (s2, msgs, err) := FetchStep(s1, [loc.value], MessageItems);
      if msgs == [] then (s2, Err("email not found"))
      else if err.Some? then (s2, Err("failed to fetch message: " + err.value))
      else match ToEmail(msgs[0], true)
        case None => (s2, Err("failed to parse email"))
        case Some(e) => (s2, Ok(e))
  }

  function CountOp(st: ServerState, folder: string, f: Filters, now: int): (ServerState, Result<nat>)
  {
    var (s1, sel) := SelectStep(st, folder);
    if sel.Err? then (s1, Err("failed to select folder " + folder + ": " + sel.msg))
    else
      var (s2, found) := SearchStep(s1, BuildCriteria(f, now, ""));
      if found.Err? then (s2, Err("failed to search emails: " + found.msg))
      else (s2, Ok(|found.value|))
  }

  function MarkReadOp(st: ServerState, folder: string, id: string, read: bool): (ServerState, Outcome)
  {
    var (s1, loc) := Locate(st, folder, id);
    if loc.Err? then (s1, Fail(loc.msg))
    else
      var (s2, o) := StoreStep(s1, [loc.value], if read then AddFlags else RemoveFlags, [SeenFlag]);
      if o.Fail? then (s2, Fail("failed to mark email: " + o.msg)) else (s2, Pass)
  }

  /** Marks the message `\Deleted` and expunges the selected folder. */
  function PurgeOp(st: ServerState, uid: nat): (ServerState, Outcome)
  {
    var (s1, o) := StoreStep(st, [uid], AddFlags, [DeletedFlag]);
    if o.Fail? then (s1, Fail("failed to mark email as deleted: " + o.msg))
    else
      var (s2, x) := ExpungeStep(s1);
      if x.Fail? then (s2, Fail("failed to expunge: " + x.msg)) else (s2, Pass)
  }

  /** A native MOVE, and when it fails a COPY followed by the purge of the
      original; the first failing step ends the operation and nothing
      already done is undone. */
  function MoveOp(st: ServerState, from: string, to: string, id: string): (ServerState, Outcome)
  {
    var (s1, loc) := Locate(st, from, id);
    if loc.Err? then (s1, Fail(loc.msg))
    else
      var uid := loc.value;
      var (s2, mv) := MoveStep(s1, [uid], to);
      if mv.Pass? then (s2, Pass)
      else
        var (s3, cp) := CopyStep(s2, [uid], to);
        if cp.Fail? then (s3, Fail("failed to copy email: " + cp.msg))
        else PurgeOp(s3, uid)
  }

  /** Permanent deletion purges the message in place; otherwise it is
      moved to "Deleted Messages", or failing that to "Trash". */
  function DeleteEmailOp(st: ServerState, folder: string, id: string, permanent: bool): (ServerState, Outcome)
  {
    if permanent then
      var (s1, loc) := Locate(st, folder, id);
      if loc.Err? then (s1, Fail(loc.msg)) else PurgeOp(s1, loc.value)
    else
      var (s1, first) := MoveOp(st, folder, TrashFolder, id);
      if first.Pass? then (s1, Pass)
      else
        var (s2, second) := MoveOp(s1, folder, AlternateTrash, id);
        if second.Fail? then (s2, Fail("failed to move to trash: " + second.msg)) else (s2, Pass)
  }

  /** "none" removes every flag keyword and reports success whatever the
      STORE answers; another type adds its keywords. */
  function FlagOp(st: ServerState, folder: string, id: string, flagType: string, color: string): (ServerState, Outcome)
  {
    var (s1, loc) := Locate(st, folder, id);
    if loc.Err? then (s1, Fail(loc.msg))
    else if flagType == "none" then (StoreStep(s1, [loc.value], RemoveFlags, NoneFlags).0, Pass)
    else match FlagKeywords(flagType, color)
      case Err(e) => (s1, Fail(e))
      case Ok(kw) =>
        var (s2, o) := StoreStep(s1, [loc.value], AddFlags, kw);
        if o.Fail? then (s2, Fail("failed to set flags: " + o.msg)) else (s2, Pass)
  }

  function CreateFolderOp(st: ServerState, name: string, parent: string): (ServerState, Outcome)
  {
    var path := FolderPath(name, parent);
    var (s1, o) := CreateStep(st, path);
    if o.Fail? then (s1, Fail("failed to create folder " + path + ": " + o.msg)) else (s1, Pass)
  }

  /** Counts the folder's messages first; a non-empty folder is deleted
      only when forced. */
  function DeleteFolderOp(st: ServerState, name: string, force: bool): (ServerState, FolderDeletion)
  {
    var (s1, counted) := CountOp(st, name, NoFilters, 0);
    if counted.Err? then
      (s1, FolderDeletion(false, 0, Some("failed to access folder " + name + ": " + counted.msg)))
    else
      var count := counted.value;
      if count > 0 && !force then
        (s1, FolderDeletion(false, count,
          Some("folder " + name + " is not empty (contains " + FormatNat(count) + " emails)")))
      else
        var (s2, d) := DeleteStep(s1, name);
        if d.Fail? then (s2, FolderDeletion(false, count, Some("failed to delete folder " + name + ": " + d.msg)))
        else (s2, FolderDeletion(count == 0, count, None))
  }

  /** Appends the draft text flagged `\Draft` and reports the draft
      folder's message count, read by selecting it, as the draft's ID. */
  function StoreDraftOp(st: ServerState, folder: string, text: string, now: int): (ServerState, Result<string>)
  {
    var (s1, a) := AppendStep(st, folder, [DraftFlag], now, text);
    if a.Fail? then (s1, Err("failed to append draft: " + a.msg))
    else
      var (s2, sel) := SelectStep(s1, folder);
      if sel.Err? then (s2, Err("failed to select draft folder: " + sel.msg))
      else (s2, Ok(FormatNat(sel.value)))
  }

  /** Saves a draft. The listing error is wrapped twice, once by the
      listing and once by the draft operation. */
  function SaveDraftOp(st: ServerState, username: string, from: string, to: seq<string>, subject: string,
                       body: string, opts: DraftOptions, now: int, dateText: string, uuid: string): (ServerState, Result<string>)
  {
    var (s1, listed) := ListOp(st);
    if listed.Err? then (s1, Err("failed to list folders: " + listed.msg))
    else
      var folder := ChooseDraftFolder(listed.value);
      var messageId := DraftMessageId(uuid, username);
      if opts.replyToId == "" then
        StoreDraftOp(s1, folder, DraftText(from, to, subject, body, opts, None, dateText, messageId), now)
      else
        var (s2, orig) := GetEmailOp(s1, ReplyFolder(opts.folder), opts.replyToId);
        if orig.Err? then (s2, Err("failed to get original email for reply: " + orig.msg))
        else StoreDraftOp(s2, folder, DraftText(from, to, subject, body, opts, Some(orig.value), dateText, messageId), now)
  }

  /** Reads the attachment named `filename` out of the message: a
      structure fetch, then a full fetch whose body literal is parsed and
      searched. */
  function GetAttachmentOp(st: ServerState, folder: string, id: string, filename: string): (ServerState, Result<AttachmentData>)
  {
    var (s1, loc) := Locate(st, folder, id);
    if loc.Err? then (s1, Err(loc.msg))
    else
      var (s2, shape, e1) := FetchStep(s1, [loc.value], [BodyStructureItem]);
      if shape == [] then (s2, Err("email not found"))
      else if e1.Some? then (s2, Err("failed to fetch email structure: " + e1.value))
      else
        var (s3, full, e2) := FetchStep(s2, [loc.value], [BodySectionItem]);
        if full == [] then (s3, Err("email not found"))
        else if e2.Some? then (s3, Err("failed to fetch message body: " + e2.value))
        else match full[0].body
          case None => (s3, Err("failed to get message body"))
          case Some(Unreadable(e)) => (s3, Err("failed to parse email: " + e))
          case Some(NotMime(e)) => (s3, Err("failed to create message reader: " + e))
          case Some(Mime(parts, failure)) => (s3, FindAttachment(parts, failure, filename))
  }
}
