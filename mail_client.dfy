/** The mailbox adapter object: a connection to the IMAP server and the
    account's user name. Each method issues the commands of one adapter
    operation one after the other and is proved to leave the server in the
    state, and to return the result, that the matching operation of
    `Mailbox` specifies. Locking is not modelled: every method runs alone. */
module MailClient {
  import opened Results
  import opened Text
  import opened Decimal
  import opened Messages
  import opened MessageParser
  import opened Threading
  import opened ImapBackend
  import opened Mailbox

  class Client {
    const server: Server?
    const username: string

    constructor (server: Server?, username: string)
      ensures this.server == server && this.username == username
    {
      this.server := server;
      this.username := username;
    }

    /** Logs out when there is a connection. */
    method Close() returns (r: Outcome)
      requires server != null ==> server.Valid()
      modifies server
      ensures server == null ==> r == Pass
      ensures server != null ==> server.Valid() && (server.Snapshot(), r) == LogoutStep(old(server.Snapshot()))
    {
      if server != null {
        r := server.Logout();
      } else {
        r := Pass;
      }
    }

    method ListFolders() returns (r: Result<seq<string>>)
      requires server != null && server.Valid()
      modifies server
      ensures server.Valid()
      ensures (server.Snapshot(), r) == ListOp(old(server.Snapshot()))
    {
      r := server.List();
      if r.Err? {
        r := Err("failed to list folders: " + r.msg);
      }
    }

    method Locate(folder: string, id: string) returns (r: Result<nat>)
      requires server != null && server.Valid()
      modifies server
      ensures server.Valid()
      ensures (server.Snapshot(), r) == Mailbox.Locate(old(server.Snapshot()), folder, id)
    {
      var sel := server.Select(folder);
      if sel.Err? {
        return Err("failed to select folder " + folder + ": " + sel.msg);
      }
      var scanned := ScanUint32(id);
      if scanned.Err? {
        return Err("invalid email ID format: " + scanned.msg);
      }
      r := Ok(scanned.value);
    }

    /** Selects the folder, searches, cuts the result down to the requested
        window and fetches a summary of each message in it. */
    method SearchEmails(folder: string, query: string, filters: Filters, now: int) returns (r: Result<Page>)
      requires server != null && server.Valid()
      modifies server
      ensures server.Valid()
      ensures (server.Snapshot(), r) == SearchOp(old(server.Snapshot()), folder, query, filters, now)
    {
      var sel := server.Select(folder);
      if sel.Err? {
        return Err("failed to select folder " + folder + ": " + sel.msg);
      }
      var criteria := BuildCriteria(filters, now, query);
      var found := server.Search(criteria);
      if found.Err? {
        return Err("failed to search emails: " + found.msg);
      }
      var uids := found.value;
      var total := |uids|;
      if total == 0 {
        return Ok(Page([], 0));
      }
      var window := CutWindow(uids, filters.offset, filters.limit);
      if window == [] {
        return Ok(Page([], total));
      }
      var msgs, err := server.Fetch(window, SummaryItems);
      var emails := ParseSummaries(msgs);
      if err.Some? {
        return Err("failed to fetch messages: " + err.value);
      }
      r := Ok(Page(emails, total));
    }

    method GetEmail(folder: string, id: string) returns (r: Result<Email>)
      requires server != null && server.Valid()
      modifies server
      ensures server.Valid()
      ensures (server.Snapshot(), r) == GetEmailOp(old(server.Snapshot()), folder, id)
    {
      var loc := Locate(folder, id);
      if loc.Err? {
        return Err(loc.msg);
      }
      var msgs, err := server.Fetch([loc.value], MessageItems);
      if |msgs| == 0 {
        return Err("email not found");
      }
      var email := ParseMessageData(msgs[0], true);
      if err.Some? {
        return Err("failed to fetch message: " + err.value);
      }
      if email.None? {
        return Err("failed to parse email");
      }
      r := Ok(email.value);
    }

    method CountEmails(folder: string, filters: Filters, now: int) returns (r: Result<nat>)
      requires server != null && server.Valid()
      modifies server
      ensures server.Valid()
      ensures (server.Snapshot(), r) == CountOp(old(server.Snapshot()), folder, filters, now)
    {
      var sel := server.Select(folder);
      if sel.Err? {
        return Err("failed to select folder " + folder + ": " + sel.msg);
      }
      var found := server.Search(BuildCriteria(filters, now, ""));
      if found.Err? {
        return Err("failed to search emails: " + found.msg);
      }
      r := Ok(|found.value|);
    }

    method MarkRead(folder: string, id: string, read: bool) returns (r: Outcome)
      requires server != null && server.Valid()
      modifies server
      ensures server.Valid()
      ensures (server.Snapshot(), r) == MarkReadOp(old(server.Snapshot()), folder, id, read)
    {
      var loc := Locate(folder, id);
      if loc.Err? {
        return Fail(loc.msg);
      }
      var mode := if read then AddFlags else RemoveFlags;
      var o := server.Store([loc.value], mode, [SeenFlag]);
      if o.Fail? {
        return Fail("failed to mark email: " + o.msg);
      }
      r := Pass;
    }

    method Purge(uid: nat) returns (r: Outcome)
      requires server != null && server.Valid()
      modifies server
      ensures server.Valid()
      ensures (server.Snapshot(), r) == PurgeOp(old(server.Snapshot()), uid)
    {
      var o := server.Store([uid], AddFlags, [DeletedFlag]);
      if o.Fail? {
        return Fail("failed to mark email as deleted: " + o.msg);
      }
      var x := server.Expunge();
      if x.Fail? {
        return Fail("failed to expunge: " + x.msg);
      }
      r := Pass;
    }

    method MoveEmail(from: string, to: string, id: string) returns (r: Outcome)
      requires server != null && server.Valid()
      modifies server
      ensures server.Valid()
      ensures (server.Snapshot(), r) == MoveOp(old(server.Snapshot()), from, to, id)
    {
      var loc := Locate(from, id);
      if loc.Err? {
        return Fail(loc.msg);
      }
      var uid := loc.value;
      var mv := server.Move([uid], to);
      if mv.Pass? {
        return Pass;
      }
      var cp := server.Copy([uid], to);
      if cp.Fail? {
        return Fail("failed to copy email: " + cp.msg);
      }
      r := Purge(uid);
    }

    method DeleteEmail(folder: string, id: string, permanent: bool) returns (r: Outcome)
      requires server != null && server.Valid()
      modifies server
      ensures server.Valid()
      ensures (server.Snapshot(), r) == DeleteEmailOp(old(server.Snapshot()), folder, id, permanent)
    {
      if permanent {
        var loc := Locate(folder, id);
        if loc.Err? {
          return Fail(loc.msg);
        }
        r := Purge(loc.value);
      } else {
        var first := MoveEmail(folder, TrashFolder, id);
        if first.Pass? {
          return Pass;
        }
        var second := MoveEmail(folder, AlternateTrash, id);
        if second.Fail? {
          return Fail("failed to move to trash: " + second.msg);
        }
        r := Pass;
      }
    }

    method FlagEmail(folder: string, id: string, flagType: string, color: string) returns (r: Outcome)
      requires server != null && server.Valid()
      modifies server
      ensures server.Valid()
      ensures (server.Snapshot(), r) == FlagOp(old(server.Snapshot()), folder, id, flagType, color)
    {
      var loc := Locate(folder, id);
      if loc.Err? {
        return Fail(loc.msg);
      }
      if flagType == "none" {
        var _ := server.Store([loc.value], RemoveFlags, NoneFlags);
        return Pass;
      }
      var keywords := FlagKeywords(flagType, color);
      if keywords.Err? {
        return Fail(keywords.msg);
      }
      var o := server.Store([loc.value], AddFlags, keywords.value);
      if o.Fail? {
        return Fail("failed to set flags: " + o.msg);
      }
      r := Pass;
    }

    method CreateFolder(name: string, parent: string) returns (r: Outcome)
      requires server != null && server.Valid()
      modifies server
      ensures server.Valid()
      ensures (server.Snapshot(), r) == CreateFolderOp(old(server.Snapshot()), name, parent)
    {
      var path := name;
      if parent != "" {
        path := parent + "/" + name;
      }
      var o := server.Create(path);
      if o.Fail? {
        return Fail("failed to create folder " + path + ": " + o.msg);
      }
      r := Pass;
    }

    method DeleteFolder(name: string, force: bool) returns (r: FolderDeletion)
      requires server != null && server.Valid()
      modifies server
      ensures server.Valid()
      ensures (server.Snapshot(), r) == DeleteFolderOp(old(server.Snapshot()), name, force)
    {
      var counted := CountEmails(name, NoFilters, 0);
      if counted.Err? {
        return FolderDeletion(false, 0, Some("failed to access folder " + name + ": " + counted.msg));
      }
      var count := counted.value;
      if count > 0 && !force {
        return FolderDeletion(false, count,
          Some("folder " + name + " is not empty (contains " + FormatNat(count) + " emails)"));
      }
      var d := server.Delete(name);
      if d.Fail? {
        return FolderDeletion(false, count, Some("failed to delete folder " + name + ": " + d.msg));
      }
      r := FolderDeletion(count == 0, count, None);
    }

    /** Saves a draft: finds the draft folder, builds the header block line
        by line (reply headers taken from the original when the draft
        answers one), appends the text and reads back the folder's size. */
    method SaveDraft(from: string, to: seq<string>, subject: string, body: string, opts: DraftOptions,
                     now: int, dateText: string, uuid: string) returns (r: Result<string>)
      requires server != null && server.Valid()
      modifies server
      ensures server.Valid()
      ensures (server.Snapshot(), r) == SaveDraftOp(old(server.Snapshot()), username, from, to, subject, body, opts, now, dateText, uuid)
    {
      var listed := ListFolders();
      if listed.Err? {
        return Err("failed to list folders: " + listed.msg);
      }
      var folder := FindDraftFolder(listed.value);
      var orig: Option<Email> := None;
      if opts.replyToId != "" {
        var fetched := GetEmail(ReplyFolder(opts.folder), opts.replyToId);
        if fetched.Err? {
          return Err("failed to get original email for reply: " + fetched.msg);
        }
        orig := Some(fetched.value);
      }
      var headers := BuildDraftHeaders(from, to, subject, opts, orig, dateText, DraftMessageId(uuid, username));
      r := StoreDraft(folder, RenderHeaders(headers) + "\r\n" + body, now);
    }

    method StoreDraft(folder: string, text: string, now: int) returns (r: Result<string>)
      requires server != null && server.Valid()
      modifies server
      ensures server.Valid()
      ensures (server.Snapshot(), r) == StoreDraftOp(old(server.Snapshot()), folder, text, now)
    {
      var a := server.Append(folder, [DraftFlag], now, text);
      if a.Fail? {
        return Err("failed to append draft: " + a.msg);
      }
      var sel := server.Select(folder);
      if sel.Err? {
        return Err("failed to select draft folder: " + sel.msg);
      }
      r := Ok(FormatNat(sel.value));
    }

    method GetAttachment(folder: string, id: string, filename: string) returns (r: Result<AttachmentData>)
      requires server != null && server.Valid()
      modifies server
      ensures server.Valid()
      ensures (server.Snapshot(), r) == GetAttachmentOp(old(server.Snapshot()), folder, id, filename)
    {
      var loc := Locate(folder, id);
      if loc.Err? {
        return Err(loc.msg);
      }
      var shape, e1 := server.Fetch([loc.value], [BodyStructureItem]);
      if |shape| == 0 {
        return Err("email not found");
      }
      if e1.Some? {
        return Err("failed to fetch email structure: " + e1.value);
      }
      var full, e2 := server.Fetch([loc.value], [BodySectionItem]);
      if |full| == 0 {
        return Err("email not found");
      }
      if e2.Some? {
        return Err("failed to fetch message body: " + e2.value);
      }
      match full[0].body {
        case None =>
          r := Err("failed to get message body");
        case Some(Unreadable(e)) =>
          r := Err("failed to parse email: " + e);
        case Some(NotMime(e)) =>
          r := Err("failed to create message reader: " + e);
        case Some(Mime(parts, failure)) =>
          r := SearchParts(parts, failure, filename);
      }
    }
  }

  /** The draft folder, found by looking each preferred name up in the
      listing in turn. */
  method FindDraftFolder(folders: seq<string>) returns (d: string)
    ensures d == ChooseDraftFolder(folders)
  {
    d := "";
    var i := 0;
    while i < |DraftFolders|
      invariant 0 <= i <= |DraftFolders|
      invariant d == ""
      invariant forall k :: 0 <= k < i ==> DraftFolders[k] !in folders
    {
      var candidate := DraftFolders[i];
      var j := 0;
      while j < |folders|
        invariant 0 <= j <= |folders|
        invariant d == "" ==> candidate !in folders[..j]
        invariant d != "" ==> d == candidate && candidate in folders
      {
        if folders[j] == candidate {
          d := candidate;
          break;
        }
        assert folders[..j + 1] == folders[..j] + [folders[j]];
        j := j + 1;
      }
      if d != "" {
        break;
      }
      assert folders[..|folders|] == folders;
      i := i + 1;
    }
    if d == "" {
      d := "Drafts";
    }
  }

  /** The search result cut down as the adapter reslices it: the newest
      `offset` UIDs dropped when `offset` is positive, then all but the
      newest `limit` dropped when `limit` is positive. */
  method CutWindow(uids: seq<nat>, offset: int, limit: int) returns (w: seq<nat>)
    requires |uids| > 0
    ensures w == Window(uids, offset, limit)
  {
    w := uids;
    if offset > 0 && offset < |w| {
      w := w[..|w| - offset];
    } else if offset >= |w| {
      return [];
    }
    if limit > 0 && |w| > limit {
      w := w[|w| - limit..];
    }
  }

  /** The summary of each fetched message, in order, skipping those
      without an envelope. */
  method ParseSummaries(msgs: seq<FetchedMessage>) returns (emails: seq<Email>)
    ensures emails == Summaries(msgs)
  {
    emails := [];
    for i := 0 to |msgs|
      invariant emails == Summaries(msgs[..i])
    {
      assert msgs[..i + 1][..i] == msgs[..i];
      var email := ParseMessageData(msgs[i], false);
      if email.Some? {
        emails := emails + [email.value];
      }
    }
    assert msgs[..|msgs|] == msgs;
  }

  /** The header block of a draft, written one header after the other. */
  method BuildDraftHeaders(from: string, to: seq<string>, subject: string, opts: DraftOptions,
                           orig: Option<Email>, dateText: string, messageId: string) returns (headers: seq<Header>)
    ensures headers == DraftHeaders(from, to, subject, opts, orig, dateText, messageId)
  {
    headers := [Header("From", from), Header("To", Join(to, ", "))];
    if |opts.cc| > 0 {
      headers := headers + [Header("Cc", Join(opts.cc, ", "))];
    }
    if |opts.bcc| > 0 {
      headers := headers + [Header("Bcc", Join(opts.bcc, ", "))];
    }
    if orig.Some? && orig.value.messageId != "" {
      var refs := ReferencesChain(orig.value.references, orig.value.messageId);
      headers := headers + [Header("In-Reply-To", orig.value.messageId), Header("References", refs)];
    }
    headers := headers + [Header("Subject", DraftSubject(subject, orig)), Header("Date", dateText),
                          Header("Message-ID", messageId), Header("Content-Type", ContentTypeOf(opts.html))];
  }
}
