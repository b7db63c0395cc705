/** The tool handlers that do more than forward their arguments: search,
    flag, folder creation and deletion, draft and send. Each reads its
    arguments (defaults, caps, required fields, recipient lists), calls the
    mailbox or mail client once the arguments are accepted, and turns the
    outcome into a tool result: an error text, or the response object
    before it is written out as JSON. */
module Handlers {
  import opened Results
  import opened Text
  import opened Decimal
  import opened Messages
  import opened Arguments
  import opened ImapBackend
  import opened Mailbox
  import opened MailClient
  import opened MailboxFacts
  import opened Outbound

  /** The values a response object holds. */
  datatype Json = JStr(s: string) | JNum(n: int) | JBool(b: bool) | JEmails(emails: seq<Email>)

  type Response = map<string, Json>

  /** What a tool call returns: an error text, or a response object. */
  datatype ToolResult = ToolError(text: string) | ToolText(response: Response)

  const DefaultFolder := "INBOX"
  const DefaultLastDays: int := 30
  const DefaultLimit: int := 50
  const MaxLimit: int := 200
  const DateHint := " (use ISO 8601 format like '2024-01-15T14:30:00Z')"

  /** The `folder` argument, "INBOX" when absent or empty. */
  function FolderArg(args: Args): (f: string)
    ensures f != ""
    ensures StrArg(args, "folder") != "" ==> f == StrArg(args, "folder")
    ensures StrArg(args, "folder") == "" ==> f == DefaultFolder
  {
    if StrArg(args, "folder") == "" then DefaultFolder else StrArg(args, "folder")
  }

  /** The numeric argument `key` when it is positive. */
  function PositiveNum(args: Args, key: string): (r: Option<real>)
    ensures r.Some? ==> r.value > 0.0
  {
    if key in args && args[key].Num? && args[key].n > 0.0 then Some(args[key].n) else None
  }

  /** The boolean argument `key`, or `default` when absent or not a
      boolean. */
  function BoolArg(args: Args, key: string, default: bool): bool
  {
    if key in args && args[key].Bool? then args[key].b else default
  }

  /** A required text argument: absent, not a string or empty is
      "<key> is required". */
  function RequiredText(args: Args, key: string): (r: Result<string>)
    ensures r.Ok? <==> StrArg(args, key) != ""
    ensures r.Ok? ==> r.value == StrArg(args, key)
    ensures r.Err? ==> r.msg == key + " is required"
  {
    if StrArg(args, key) == "" then Err(key + " is required") else Ok(StrArg(args, key))
  }

  // ---------------------------------------------------------------------
  // Search.

  datatype SearchRequest = SearchRequest(folder: string, query: string, filters: Filters)

  /** The parsed time argument `key`: `None` when absent or empty, the
      parser's verdict otherwise. */
  function TimeArg(args: Args, key: string, parseTime: string -> Result<int>): Option<Result<int>>
  {
    if StrArg(args, key) == "" then None else Some(parseTime(StrArg(args, key)))
  }

  /** The day count: the whole part of a positive `last_days`, else 30. */
  function DaysArg(args: Args): int
  {
    if PositiveNum(args, "last_days").Some? then PositiveNum(args, "last_days").value.Floor else DefaultLastDays
  }

  /** The page size: the whole part of a positive `limit`, at most 200,
      else 50. */
  function LimitArg(args: Args): int
  {
    if PositiveNum(args, "limit").Some? then
      (var n := PositiveNum(args, "limit").value.Floor; if n > MaxLimit then MaxLimit else n)
    else DefaultLimit
  }

  /** The search request the arguments describe: the folder (default
      INBOX), the query, and the filters: 30 days and 50 messages unless a
      positive `last_days` or `limit` is given (whole part taken, limit
      capped at 200), an unread-only switch, `since` and `before` times
      (a `since` clears the day count), and no offset. A malformed time is
      an error. */
  function SearchRequestOf(args: Args, parseTime: string -> Result<int>): Result<SearchRequest>
  {
    var lastDays := DaysArg(args);
    var limit := LimitArg(args);
    var since := TimeArg(args, "since", parseTime);
    var before := TimeArg(args, "before", parseTime);
    if since.Some? && since.value.Err? then Err("invalid since format: " + since.value.msg + DateHint)
    else if before.Some? && before.value.Err? then Err("invalid before format: " + before.value.msg + DateHint)
    else
      Ok(SearchRequest(FolderArg(args), StrArg(args, "query"),
        Filters(if since.Some? then 0 else lastDays,
                if since.Some? then Some(since.value.value) else None,
                if before.Some? then Some(before.value.value) else None,
                BoolArg(args, "unread_only", false), limit, 0)))
  }

  /** The rules of the search arguments. */
  lemma SearchRequestFacts(args: Args, parseTime: string -> Result<int>)
    ensures var r := SearchRequestOf(args, parseTime);
      && (r.Err? <==> (TimeArg(args, "since", parseTime).Some? && TimeArg(args, "since", parseTime).value.Err?)
                      || (TimeArg(args, "before", parseTime).Some? && TimeArg(args, "before", parseTime).value.Err?))
      && (r.Ok? ==>
           && r.value.folder == FolderArg(args)
           && r.value.query == StrArg(args, "query")
           && r.value.filters.offset == 0
           && 0 <= r.value.filters.limit <= MaxLimit
           && (PositiveNum(args, "limit").None? ==> r.value.filters.limit == DefaultLimit)
           && (PositiveNum(args, "limit").Some? && PositiveNum(args, "limit").value < (MaxLimit as real) ==>
                 r.value.filters.limit == PositiveNum(args, "limit").value.Floor)
           && (StrArg(args, "since") != "" ==>
                 r.value.filters.lastDays == 0 && r.value.filters.since == Some(parseTime(StrArg(args, "since")).value))
           && (StrArg(args, "since") == "" ==> r.value.filters.since.None?)
           && (StrArg(args, "since") == "" && PositiveNum(args, "last_days").None? ==>
                 r.value.filters.lastDays == DefaultLastDays)
           && (StrArg(args, "since") == "" && PositiveNum(args, "last_days").Some? ==>
                 r.value.filters.lastDays == PositiveNum(args, "last_days").value.Floor)
           && (PositiveNum(args, "limit").Some? && PositiveNum(args, "limit").value >= (MaxLimit as real) ==>
                 r.value.filters.limit == MaxLimit)
           && (StrArg(args, "before") != "" ==>
                 r.value.filters.before == Some(parseTime(StrArg(args, "before")).value))
           && (StrArg(args, "before") == "" ==> r.value.filters.before.None?)
           && r.value.filters.unreadOnly == BoolArg(args, "unread_only", false))
  {
    var p := PositiveNum(args, "limit");
    if p.Some? {
      assert p.value.Floor >= 0;
      if p.value < MaxLimit as real {
        assert p.value.Floor < MaxLimit;
      } else {
        assert p.value.Floor >= MaxLimit;
      }
    }
  }

  /** Reads the search arguments, filling in the filter record field by
      field over its defaults. */
  method SearchArgs(args: Args, parseTime: string -> Result<int>) returns (r: Result<SearchRequest>)
    ensures r == SearchRequestOf(args, parseTime)
  {
    var folder := StrArg(args, "folder");
    if folder == "" {
      folder := DefaultFolder;
    }
    var query := StrArg(args, "query");
    var filters := Filters(DefaultLastDays, None, None, false, DefaultLimit, 0);
    if "last_days" in args && args["last_days"].Num? && args["last_days"].n > 0.0 {
      filters := filters.(lastDays := args["last_days"].n.Floor);
    }
    if "limit" in args && args["limit"].Num? && args["limit"].n > 0.0 {
      filters := filters.(limit := args["limit"].n.Floor);
      if filters.limit > MaxLimit {
        filters := filters.(limit := MaxLimit);
      }
    }
    assert filters.lastDays == DaysArg(args) && filters.limit == LimitArg(args);
    if "unread_only" in args && args["unread_only"].Bool? {
      filters := filters.(unreadOnly := args["unread_only"].b);
    }
    var sinceText := StrArg(args, "since");
    if sinceText != "" {
      var t := parseTime(sinceText);
      if t.Err? {
        return Err("invalid since format: " + t.msg + DateHint);
      }
      filters := filters.(since := Some(t.value), lastDays := 0);
    }
    var beforeText := StrArg(args, "before");
    if beforeText != "" {
      var t := parseTime(beforeText);
      if t.Err? {
        return Err("invalid before format: " + t.msg + DateHint);
      }
      filters := filters.(before := Some(t.value));
    }
    r := Ok(SearchRequest(folder, query, filters));
  }

  /** The search response: the number of e-mails returned, the e-mails,
      the folder, and the query only when one was given. */
  function SearchResponse(emails: seq<Email>, folder: string, query: string): (r: Response)
    ensures "count" in r && r["count"] == JNum(|emails|)
    ensures "emails" in r && r["emails"] == JEmails(emails)
    ensures "folder" in r && r["folder"] == JStr(folder)
    ensures "query" in r <==> query != ""
    ensures query != "" ==> r["query"] == JStr(query)
  {
    var r := map["count" := JNum(|emails|), "emails" := JEmails(emails), "folder" := JStr(folder)];
    if query != "" then r["query" := JStr(query)] else r
  }

  /** The tool result of a search. */
  function SearchResult(q: SearchRequest, page: Result<Page>): ToolResult
  {
    if page.Err? then ToolError("failed to search emails: " + page.msg)
    else ToolText(SearchResponse(page.value.emails, q.folder, q.query))
  }

  /** A search: nothing reaches the server when the arguments are
      rejected. */
  method SearchEmailsHandler(client: Client, args: Args, now: int, parseTime: string -> Result<int>) returns (res: ToolResult)
    requires client.server != null && client.server.Valid()
    modifies client.server
    ensures client.server.Valid()
    ensures SearchRequestOf(args, parseTime).Err? ==>
      res == ToolError(SearchRequestOf(args, parseTime).msg) && client.server.Snapshot() == old(client.server.Snapshot())
    ensures SearchRequestOf(args, parseTime).Ok? ==>
      var q := SearchRequestOf(args, parseTime).value;
      var (st, page) := SearchOp(old(client.server.Snapshot()), q.folder, q.query, q.filters, now);
      client.server.Snapshot() == st && res == SearchResult(q, page)
  {
    var q := SearchArgs(args, parseTime);
    if q.Err? {
      return ToolError(q.msg);
    }
    var page := client.SearchEmails(q.value.folder, q.value.query, q.value.filters, now);
    res := SearchResult(q.value, page);
  }

  // ---------------------------------------------------------------------
  // Flags.

  const FlagTypes: seq<string> := ["follow-up", "important", "deadline", "none"]
  const Colors: seq<string> := ["red", "orange", "yellow", "green", "blue", "purple"]

  datatype FlagRequest = FlagRequest(emailId: string, flagType: string, folder: string, color: string)

  /** The flag request the arguments describe: an e-mail ID and a flag
      type are required, the type must be one of `FlagTypes`, the folder
      defaults to INBOX, and a colour, when given, must be one of
      `Colors`. */
  function FlagRequestOf(args: Args): (r: Result<FlagRequest>)
    ensures r.Ok? ==> r.value.emailId != "" && r.value.flagType in FlagTypes && r.value.folder != ""
                      && (r.value.color == "" || r.value.color in Colors)
    ensures StrArg(args, "email_id") == "" ==> r == Err("email_id is required")
    ensures StrArg(args, "email_id") != "" && StrArg(args, "flag") == "" ==> r == Err("flag is required")
    ensures StrArg(args, "email_id") != "" && StrArg(args, "flag") != "" && StrArg(args, "flag") !in FlagTypes ==>
      r == Err("flag must be one of: follow-up, important, deadline, none")
    ensures r.Err? && StrArg(args, "email_id") != "" && StrArg(args, "flag") in FlagTypes ==>
      StrArg(args, "color") !in Colors && r == Err("color must be one of: red, orange, yellow, green, blue, purple")
    ensures r.Ok? <==> StrArg(args, "email_id") != "" && StrArg(args, "flag") in FlagTypes
                       && (StrArg(args, "color") == "" || StrArg(args, "color") in Colors)
    ensures r.Ok? ==> r.value == FlagRequest(StrArg(args, "email_id"), StrArg(args, "flag"), FolderArg(args), StrArg(args, "color"))
  {
    var id := StrArg(args, "email_id");
    var flagType := StrArg(args, "flag");
    var color := StrArg(args, "color");
    if id == "" then Err("email_id is required")
    else if flagType == "" then Err("flag is required")
    else if flagType !in FlagTypes then Err("flag must be one of: follow-up, important, deadline, none")
    else if color != "" && color !in Colors then Err("color must be one of: red, orange, yellow, green, blue, purple")
    else Ok(FlagRequest(id, flagType, FolderArg(args), color))
  }

  /** The flag types and colours the handler accepts are exactly those the
      mailbox can map to keywords: an accepted request never meets the
      "invalid flag type" or "invalid color" errors. */
  lemma FlagRequestAgreesWithKeywords(args: Args)
    ensures var r := FlagRequestOf(args);
      r.Ok? ==> r.value.flagType == "none" || FlagKeywords(r.value.flagType, r.value.color).Ok?
    ensures forall t, c :: FlagKeywords(t, c).Ok? ==> t in FlagTypes && (c == "" || c in Colors)
  {
    var r := FlagRequestOf(args);
    if r.Ok? && r.value.flagType != "none" {
      assert r.value.flagType in FlagTypes[..3];
      assert r.value.color == "" || r.value.color in Colors;
    }
  }

  /** The confirmation message of a flag change. */
  function FlagMessage(flagType: string, color: string): (m: string)
    ensures flagType == "none" ==> m == "Email flags removed successfully"
    ensures flagType != "none" && color == "" ==> m == "Email flagged as " + flagType + " successfully"
    ensures flagType != "none" && color != "" ==> m == "Email flagged as " + flagType + " (" + color + ") successfully"
  {
    if flagType == "none" then "Email flags removed successfully"
    else if color != "" then "Email flagged as " + flagType + " (" + color + ") successfully"
    else "Email flagged as " + flagType + " successfully"
  }

  /** The flag response: success, the ID and flag, the colour only when
      one was given, and the message. */
  function FlagResponse(q: FlagRequest): (r: Response)
    ensures "color" in r <==> q.color != ""
    ensures "message" in r && r["message"] == JStr(FlagMessage(q.flagType, q.color))
    ensures "success" in r && r["success"] == JBool(true)
    ensures "email_id" in r && r["email_id"] == JStr(q.emailId)
    ensures "flag" in r && r["flag"] == JStr(q.flagType)
  {
    var r := map["success" := JBool(true), "email_id" := JStr(q.emailId), "flag" := JStr(q.flagType)];
    var r := if q.color != "" then r["color" := JStr(q.color)] else r;
    r["message" := JStr(FlagMessage(q.flagType, q.color))]
  }

  /** Flags an e-mail: a rejected request issues no command. */
  method FlagEmailHandler(client: Client, args: Args) returns (res: ToolResult)
    requires client.server != null && client.server.Valid()
    modifies client.server
    ensures client.server.Valid()
    ensures FlagRequestOf(args).Err? ==>
      res == ToolError(FlagRequestOf(args).msg) && client.server.Snapshot() == old(client.server.Snapshot())
    ensures FlagRequestOf(args).Ok? ==>
      var q := FlagRequestOf(args).value;
      var (st, o) := FlagOp(old(client.server.Snapshot()), q.folder, q.emailId, q.flagType, q.color);
      && client.server.Snapshot() == st
      && res == (if o.Fail? then ToolError("failed to flag email: " + o.msg) else ToolText(FlagResponse(q)))
  {
    var q := FlagRequestOf(args);
    if q.Err? {
      return ToolError(q.msg);
    }
    var o := client.FlagEmail(q.value.folder, q.value.emailId, q.value.flagType, q.value.color);
    if o.Fail? {
      return ToolError("failed to flag email: " + o.msg);
    }
    res := ToolText(FlagResponse(q.value));
  }

  // ---------------------------------------------------------------------
  // Folders.

  /** The response to a created folder, naming its full path. */
  function CreatedResponse(name: string, path: string): (r: Response)
    ensures "path" in r && r["path"] == JStr(path)
    ensures "folder_name" in r && r["folder_name"] == JStr(name)
    ensures "message" in r && r["message"] == JStr("Folder '" + path + "' created successfully")
  {
    map["success" := JBool(true), "folder_name" := JStr(name), "path" := JStr(path),
        "message" := JStr("Folder '" + path + "' created successfully")]
  }

  /** Creates a folder: the name is required, and the path reported is the
      path created. */
  method CreateFolderHandler(client: Client, args: Args) returns (res: ToolResult)
    requires client.server != null && client.server.Valid()
    modifies client.server
    ensures client.server.Valid()
    ensures StrArg(args, "name") == "" ==>
      res == ToolError("name parameter is required") && client.server.Snapshot() == old(client.server.Snapshot())
    ensures StrArg(args, "name") != "" ==>
      var name := StrArg(args, "name");
      var parent := StrArg(args, "parent");
      var (st, o) := CreateFolderOp(old(client.server.Snapshot()), name, parent);
      && client.server.Snapshot() == st
      && res == (if o.Fail? then ToolError("failed to create folder: " + o.msg)
                 else ToolText(CreatedResponse(name, FolderPath(name, parent))))
  {
    var name := StrArg(args, "name");
    if name == "" {
      return ToolError("name parameter is required");
    }
    var parent := StrArg(args, "parent");
    var path := name;
    if parent != "" {
      path := parent + "/" + name;
    }
    var o := client.CreateFolder(name, parent);
    if o.Fail? {
      return ToolError("failed to create folder: " + o.msg);
    }
    res := ToolText(CreatedResponse(name, path));
  }

  /** A successful creation reports the path that now exists on the
      server. */
  lemma CreatedPathExists(st: ServerState, name: string, parent: string)
    ensures var (s, o) := CreateFolderOp(st, name, parent);
      o.Pass? ==> FolderPath(name, parent) in s.folders
                  && CreatedResponse(name, FolderPath(name, parent))["path"] == JStr(FolderPath(name, parent))
  {
    CreateFolderListed(st, name, parent);
  }

  /** The tool result of a folder deletion: a folder left alone because
      it is not empty gives a response (not an error) with its message
      count; any other failure is an error; a deletion reports the number
      of e-mails deleted only when the folder was not empty. */
  function DeleteFolderResult(name: string, force: bool, d: FolderDeletion): (r: ToolResult)
    ensures d.err.Some? && !force && d.count > 0 ==>
      r.ToolText? && "success" in r.response && "email_count" in r.response && r.response["success"] == JBool(false) && r.response["email_count"] == JNum(d.count)
    ensures d.err.Some? && !(!force && d.count > 0) ==> r == ToolError("failed to delete folder: " + d.err.value)
    ensures d.err.None? ==> r.ToolText? && "success" in r.response && r.response["success"] == JBool(true)
                            && ("emails_deleted" in r.response <==> !d.wasEmpty)
  {
    if d.err.Some? then
      if !force && d.count > 0 then
        ToolText(map["success" := JBool(false), "folder_name" := JStr(name), "email_count" := JNum(d.count),
                     "message" := JStr("Folder '" + name + "' is not empty (contains " + FormatNat(d.count)
                                       + " emails). Use force=true to delete anyway.")])
      else ToolError("failed to delete folder: " + d.err.value)
    else
      var r := map["success" := JBool(true), "folder_name" := JStr(name), "was_empty" := JBool(d.wasEmpty),
                   "message" := JStr("Folder '" + name + "' deleted successfully")];
      ToolText(if !d.wasEmpty then r["emails_deleted" := JNum(d.count)] else r)
  }

  /** Deletes a folder; `force` defaults to false. */
  method DeleteFolderHandler(client: Client, args: Args) returns (res: ToolResult)
    requires client.server != null && client.server.Valid()
    modifies client.server
    ensures client.server.Valid()
    ensures StrArg(args, "name") == "" ==>
      res == ToolError("name parameter is required") && client.server.Snapshot() == old(client.server.Snapshot())
    ensures StrArg(args, "name") != "" ==>
      var force := BoolArg(args, "force", false);
      var (st, d) := DeleteFolderOp(old(client.server.Snapshot()), StrArg(args, "name"), force);
      client.server.Snapshot() == st && res == DeleteFolderResult(StrArg(args, "name"), force, d)
  {
    var name := StrArg(args, "name");
    if name == "" {
      return ToolError("name parameter is required");
    }
    var force := false;
    if "force" in args && args["force"].Bool? {
      force := args["force"].b;
    }
    var d := client.DeleteFolder(name, force);
    res := DeleteFolderResult(name, force, d);
  }

  /** Without `force`, a non-empty folder yields the structured response
      with its message count and is not deleted; an unreachable folder
      yields an error. */
  lemma DeleteFolderOutcomes(st: ServerState, name: string)
    requires SelectCmd !in st.failures && SearchCmd !in st.failures && name in st.folders
    ensures st.folders[name] != [] ==>
      var (s, d) := DeleteFolderOp(st, name, false);
      var r := DeleteFolderResult(name, false, d);
      && r.ToolText? && "success" in r.response && r.response["success"] == JBool(false)
      && "email_count" in r.response && r.response["email_count"] == JNum(|st.folders[name]|)
      && s.folders == st.folders
  {
    if st.folders[name] != [] {
      DeleteFolderGuard(st, name);
    }
  }

  /** A folder that cannot be selected is reported as an error, whatever
      `force` says. */
  lemma DeleteFolderUnreachableIsError(st: ServerState, name: string, force: bool)
    requires SelectCmd in st.failures || name !in st.folders
    ensures var (s, d) := DeleteFolderOp(st, name, force);
      DeleteFolderResult(name, force, d).ToolError?
  {
    DeleteFolderUnreachable(st, name, force);
  }

  // ---------------------------------------------------------------------
  // Recipients of drafts and sent messages.

  datatype Recipients = Recipients(to: seq<string>, cc: seq<string>, bcc: seq<string>)

  /** The recipients of a draft or a sent message: the `to` list (see
      `ToList`), then the Cc and Bcc lists (see `OptionalList`), each
      checked by the address parser right after it is read. */
  function RecipientsOf(args: Args, parse: string -> Option<string>): Result<Recipients>
  {
    var to := ToList(ArgOf(args, "to"));
    if to.Err? then Err(to.msg)
    else if AddressCheck("", to.value, parse).Some? then Err(AddressCheck("", to.value, parse).value)
    else
      var cc := OptionalList(ArgOf(args, "cc"));
      if AddressCheck("CC ", cc, parse).Some? then Err(AddressCheck("CC ", cc, parse).value)
      else
        var bcc := OptionalList(ArgOf(args, "bcc"));
        if AddressCheck("BCC ", bcc, parse).Some? then Err(AddressCheck("BCC ", bcc, parse).value)
        else Ok(Recipients(to.value, cc, bcc))
  }

  /** Accepted recipients are non-empty addresses the parser accepts, with
      at least one To address; a rejected address is reported naming its
      list. */
  lemma RecipientsFacts(args: Args, parse: string -> Option<string>)
    ensures var r := RecipientsOf(args, parse);
      && (r.Ok? ==> (|r.value.to| > 0
            && (forall a :: a in r.value.to + r.value.cc + r.value.bcc ==> a != "" && parse(a).None?)))
      && (ToList(ArgOf(args, "to")).Err? ==> r == Err(ToList(ArgOf(args, "to")).msg))
      && (r.Ok? ==> r.value.cc == OptionalList(ArgOf(args, "cc")) && r.value.bcc == OptionalList(ArgOf(args, "bcc")))
  {
    var r := RecipientsOf(args, parse);
    if r.Ok? {
      forall a | a in r.value.to + r.value.cc + r.value.bcc ensures a != "" && parse(a).None? {
        if a in r.value.to {
          var i :| 0 <= i < |r.value.to| && r.value.to[i] == a;
        } else if a in r.value.cc {
          var i :| 0 <= i < |r.value.cc| && r.value.cc[i] == a;
        } else {
          var i :| 0 <= i < |r.value.bcc| && r.value.bcc[i] == a;
        }
      }
    }
  }

  /** Reads and checks the recipient lists in the order the tools do. */
  method ReadRecipients(args: Args, parse: string -> Option<string>) returns (r: Result<Recipients>)
    ensures r == RecipientsOf(args, parse)
  {
    var to := ReadTo(ArgOf(args, "to"));
    if to.Err? {
      return Err(to.msg);
    }
    var bad := CheckAddresses("", to.value, parse);
    if bad.Some? {
      return Err(bad.value);
    }
    var cc := ReadOptionalList(ArgOf(args, "cc"));
    bad := CheckAddresses("CC ", cc, parse);
    if bad.Some? {
      return Err(bad.value);
    }
    var bcc := ReadOptionalList(ArgOf(args, "bcc"));
    bad := CheckAddresses("BCC ", bcc, parse);
    if bad.Some? {
      return Err(bad.value);
    }
    r := Ok(Recipients(to.value, cc, bcc));
  }

  // ---------------------------------------------------------------------
  // Drafts.

  datatype DraftRequest = DraftRequest(subject: string, body: string, to: seq<string>, opts: DraftOptions)

  /** The draft request the arguments describe: subject, body, then the
      recipients; the HTML switch; and the message answered, whose folder
      is taken only when a `reply_to_id` is given. */
  function DraftRequestOf(args: Args, parse: string -> Option<string>): (r: Result<DraftRequest>)
    ensures StrArg(args, "subject") == "" ==> r == Err("subject is required")
    ensures StrArg(args, "subject") != "" && StrArg(args, "body") == "" ==> r == Err("body is required")
    ensures r.Ok? ==> r.value.opts.folder != "" ==> r.value.opts.replyToId != ""
    ensures r.Ok? ==> r.value.opts.replyToId == StrArg(args, "reply_to_id")
    ensures StrArg(args, "subject") != "" && StrArg(args, "body") != "" && RecipientsOf(args, parse).Err? ==>
      r == Err(RecipientsOf(args, parse).msg)
    ensures r.Ok? ==>
      && RecipientsOf(args, parse).Ok?
      && r.value.to == RecipientsOf(args, parse).value.to
      && r.value.opts.cc == RecipientsOf(args, parse).value.cc
      && r.value.opts.bcc == RecipientsOf(args, parse).value.bcc
      && r.value.subject == StrArg(args, "subject") && r.value.body == StrArg(args, "body")
      && r.value.opts.html == BoolArg(args, "html", false)
  {
    var subject := RequiredText(args, "subject");
    var body := RequiredText(args, "body");
    if subject.Err? then Err(subject.msg)
    else if body.Err? then Err(body.msg)
    else
      var rc := RecipientsOf(args, parse);
      if rc.Err? then Err(rc.msg)
      else
        var replyTo := StrArg(args, "reply_to_id");
        Ok(DraftRequest(subject.value, body.value, rc.value.to,
          DraftOptions(rc.value.cc, rc.value.bcc, BoolArg(args, "html", false), replyTo,
                       if replyTo != "" then StrArg(args, "folder") else "")))
  }

  /** Reads the draft arguments, filling in the options one by one. */
  method DraftArgs(args: Args, parse: string -> Option<string>) returns (r: Result<DraftRequest>)
    ensures r == DraftRequestOf(args, parse)
  {
    var subject := StrArg(args, "subject");
    if subject == "" {
      return Err("subject is required");
    }
    var body := StrArg(args, "body");
    if body == "" {
      return Err("body is required");
    }
    var rc := ReadRecipients(args, parse);
    if rc.Err? {
      return Err(rc.msg);
    }
    var opts := DraftOptions(rc.value.cc, rc.value.bcc, false, "", "");
    if "html" in args && args["html"].Bool? {
      opts := opts.(html := args["html"].b);
    }
    var replyTo := StrArg(args, "reply_to_id");
    if replyTo != "" {
      opts := opts.(replyToId := replyTo);
      var folder := StrArg(args, "folder");
      if folder != "" {
        opts := opts.(folder := folder);
      }
    }
    r := Ok(DraftRequest(subject, body, rc.value.to, opts));
  }

  /** The preview text of a draft before it is shortened. */
  function PreviewText(to: seq<string>, cc: seq<string>, subject: string, body: string): string
  {
    "To: " + Join(to, ", ") + "\n"
    + (if |cc| > 0 then "CC: " + Join(cc, ", ") + "\n" else "")
    + "Subject: " + subject + "\n"
    + "Body: " + body
  }

  /** Writes the preview line by line, then cuts it to 200 characters. */
  method BuildPreview(to: seq<string>, cc: seq<string>, subject: string, body: string) returns (p: string)
    ensures p == Abbreviate(PreviewText(to, cc, subject, body))
    ensures |p| <= 200
    ensures |PreviewText(to, cc, subject, body)| <= 200 ==> p == PreviewText(to, cc, subject, body)
  {
    var ccLine := "";
    if |cc| > 0 {
      ccLine := "CC: " + Join(cc, ", ") + "\n";
    }
    p := "To: " + Join(to, ", ") + "\n" + ccLine + "Subject: " + subject + "\n" + "Body: " + body;
    if |p| > 200 {
      p := p[..197] + "...";
    }
  }

  /** The draft response: the draft ID, the preview, and the answered
      message's ID only for a reply. */
  function DraftResponse(draftId: string, preview: string, replyToId: string): (r: Response)
    ensures "draft_id" in r && r["draft_id"] == JStr(draftId)
    ensures "preview" in r && r["preview"] == JStr(preview)
    ensures "reply_to" in r <==> replyToId != ""
  {
    var r := map["success" := JBool(true), "draft_id" := JStr(draftId),
                 "message" := JStr("Draft saved successfully"), "preview" := JStr(preview)];
    if replyToId != "" then r["reply_to" := JStr(replyToId)] else r
  }

  /** Saves a draft from `fromEmail`: rejected arguments reach no server. */
  method DraftEmailHandler(client: Client, fromEmail: string, args: Args, parse: string -> Option<string>,
                           now: int, dateText: string, uuid: string) returns (res: ToolResult)
    requires client.server != null && client.server.Valid()
    modifies client.server
    ensures client.server.Valid()
    ensures DraftRequestOf(args, parse).Err? ==>
      res == ToolError(DraftRequestOf(args, parse).msg) && client.server.Snapshot() == old(client.server.Snapshot())
    ensures DraftRequestOf(args, parse).Ok? ==>
      var q := DraftRequestOf(args, parse).value;
      var (st, id) := SaveDraftOp(old(client.server.Snapshot()), client.username, fromEmail, q.to, q.subject, q.body,
                                  q.opts, now, dateText, uuid);
      && client.server.Snapshot() == st
      && (id.Err? ==> res == ToolError("failed to save draft: " + id.msg))
      && (id.Ok? ==> res == ToolText(DraftResponse(id.value, Abbreviate(PreviewText(q.to, q.opts.cc, q.subject, q.body)),
                                                   q.opts.replyToId)))
  {
    var q := DraftArgs(args, parse);
    if q.Err? {
      return ToolError(q.msg);
    }
    var r := q.value;
    var id := client.SaveDraft(fromEmail, r.to, r.subject, r.body, r.opts, now, dateText, uuid);
    if id.Err? {
      return ToolError("failed to save draft: " + id.msg);
    }
    var preview := BuildPreview(r.to, r.opts.cc, r.subject, r.body);
    res := ToolText(DraftResponse(id.value, preview, r.opts.replyToId));
  }

  // ---------------------------------------------------------------------
  // Sending.

  datatype SendRequest = SendRequest(subject: string, body: string, to: seq<string>, opts: SendOptions)

  /** The send request the arguments describe: subject, body, the
      recipients and the HTML switch; no extra header fields. */
  function SendRequestOf(args: Args, parse: string -> Option<string>): (r: Result<SendRequest>)
    ensures StrArg(args, "subject") == "" ==> r == Err("subject is required")
    ensures StrArg(args, "subject") != "" && StrArg(args, "body") == "" ==> r == Err("body is required")
    ensures r.Ok? ==> r.value.opts.headers == map[]
    ensures r.Ok? ==> r.value.opts.html == BoolArg(args, "html", false)
    ensures StrArg(args, "subject") != "" && StrArg(args, "body") != "" && RecipientsOf(args, parse).Err? ==>
      r == Err(RecipientsOf(args, parse).msg)
    ensures r.Ok? ==>
      && RecipientsOf(args, parse).Ok?
      && r.value.to == RecipientsOf(args, parse).value.to
      && r.value.opts.cc == RecipientsOf(args, parse).value.cc
      && r.value.opts.bcc == RecipientsOf(args, parse).value.bcc
      && r.value.subject == StrArg(args, "subject") && r.value.body == StrArg(args, "body")
  {
    var subject := RequiredText(args, "subject");
    var body := RequiredText(args, "body");
    if subject.Err? then Err(subject.msg)
    else if body.Err? then Err(body.msg)
    else
      var rc := RecipientsOf(args, parse);
      if rc.Err? then Err(rc.msg)
      else Ok(SendRequest(subject.value, body.value, rc.value.to,
                          SendOptions(rc.value.cc, rc.value.bcc, BoolArg(args, "html", false), map[])))
  }

  /** Nothing is saved or sent to an unchecked address: every To, Cc and
      Bcc address of an accepted draft or send request is non-empty and
      accepted by the address parser, and there is at least one To
      address. */
  lemma RequestsCheckAddresses(args: Args, parse: string -> Option<string>)
    ensures var d := DraftRequestOf(args, parse);
      d.Ok? ==> |d.value.to| > 0
                && forall a :: a in d.value.to + d.value.opts.cc + d.value.opts.bcc ==> a != "" && parse(a).None?
    ensures var q := SendRequestOf(args, parse);
      q.Ok? ==> |q.value.to| > 0
                && forall a :: a in q.value.to + q.value.opts.cc + q.value.opts.bcc ==> a != "" && parse(a).None?
  {
    RecipientsFacts(args, parse);
  }

  /** Reads the send arguments. */
  method SendArgs(args: Args, parse: string -> Option<string>) returns (r: Result<SendRequest>)
    ensures r == SendRequestOf(args, parse)
  {
    var subject := StrArg(args, "subject");
    if subject == "" {
      return Err("subject is required");
    }
    var body := StrArg(args, "body");
    if body == "" {
      return Err("body is required");
    }
    var rc := ReadRecipients(args, parse);
    if rc.Err? {
      return Err(rc.msg);
    }
    var opts := SendOptions(rc.value.cc, rc.value.bcc, false, map[]);
    if "html" in args && args["html"].Bool? {
      opts := opts.(html := args["html"].b);
    }
    r := Ok(SendRequest(subject, body, rc.value.to, opts));
  }

  /** The confirmation of a sent message: the To list as Go prints a
      slice, and the subject. */
  function SentResponse(to: seq<string>, subject: string): (r: Response)
    ensures "subject" in r && r["subject"] == JStr(subject)
    ensures "message" in r && r["message"] == JStr("Email sent successfully to [" + Join(to, " ") + "]")
  {
    map["success" := JBool(true), "message" := JStr("Email sent successfully to [" + Join(to, " ") + "]"),
        "subject" := JStr(subject)]
  }

  /** Sends a message from `fromEmail`: rejected arguments send nothing,
      and a refused submission is wrapped once more. */
  method SendEmailHandler(smtp: SmtpClient, fromEmail: string, args: Args, parse: string -> Option<string>,
                          dateText: string, nanos: nat) returns (res: ToolResult)
    modifies smtp.transport
    ensures smtp.transport.failure == old(smtp.transport.failure)
    ensures SendRequestOf(args, parse).Err? ==>
      res == ToolError(SendRequestOf(args, parse).msg) && smtp.transport.sent == old(smtp.transport.sent)
    ensures SendRequestOf(args, parse).Ok? && old(smtp.transport.failure).Some? ==>
      && res == ToolError("failed to send email: " + ("failed to send email: " + old(smtp.transport.failure).value))
      && smtp.transport.sent == old(smtp.transport.sent)
    ensures SendRequestOf(args, parse).Ok? && old(smtp.transport.failure).None? ==>
      var q := SendRequestOf(args, parse).value;
      && res == ToolText(SentResponse(q.to, q.subject))
      && |smtp.transport.sent| == |old(smtp.transport.sent)| + 1
      && smtp.transport.sent[..|old(smtp.transport.sent)|] == old(smtp.transport.sent)
      && Composed(smtp.transport.sent[|old(smtp.transport.sent)|], fromEmail, q.to, q.subject, q.body, q.opts,
                  dateText, SentMessageId(nanos, smtp.username))
  {
    var q := SendArgs(args, parse);
    if q.Err? {
      return ToolError(q.msg);
    }
    var r := q.value;
    var o := smtp.SendEmail(fromEmail, r.to, r.subject, r.body, r.opts, dateText, nanos);
    if o.Fail? {
      return ToolError("failed to send email: " + o.msg);
    }
    res := ToolText(SentResponse(r.to, r.subject));
  }

  /** A message sent through the send tool has no Bcc field, the default
      header alone plus its content type, and the envelope To, Cc, Bcc. */
  lemma SentThroughToolHidesBcc(args: Args, parse: string -> Option<string>, m: Outgoing,
                                fromEmail: string, dateText: string, messageId: string)
    requires SendRequestOf(args, parse).Ok?
    requires var q := SendRequestOf(args, parse).value;
      Composed(m, fromEmail, q.to, q.subject, q.body, q.opts, dateText, messageId)
    ensures var q := SendRequestOf(args, parse).value;
      && "Bcc" !in m.header
      && m.header == DefaultHeader(fromEmail, q.to, q.opts.cc, q.subject, dateText, messageId)["Content-Type" := TopContentType(q.opts.html)]
      && m.recipients == q.to + q.opts.cc + q.opts.bcc
  {
    var q := SendRequestOf(args, parse).value;
    PlainHeader(m, fromEmail, q.to, q.subject, q.body, q.opts, dateText, messageId);
    BccNotInHeader(m, fromEmail, q.to, q.subject, q.body, q.opts, dateText, messageId);
  }
}
