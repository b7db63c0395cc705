# iCloud mail tool server — a Dafny model of its core

The repository is a Model Context Protocol server: a set of tools, such as
search, flag, draft and send, that let a client work with an iCloud mail
account. Each tool handler reads its JSON arguments, checks them, and calls
one of two adapters:

- the mailbox adapter (`imap/client.go`), which issues IMAP commands;
- the sending adapter (`smtp/client.go`), which composes a MIME message and
  submits it over SMTP.

This project models those adapters, the validators and argument helpers of
the tool layer, and the handlers that do more than forward their arguments.
It proves what each one promises.

Module layout (one file each):

- `Results`: the `Option`, `Result` and `Outcome` wrappers.
- `Text`: substring search, ASCII lower-casing, trimming, joining,
  replacement, and the 200-character abbreviation the adapter uses for
  snippets and previews.
- `Decimal`: decimal formatting of UIDs and counts, and the `%d` scan of an
  e-mail ID into a 32-bit UID.
- `Threading`: the "Re:" reply subject and the References chain, which the
  draft and reply paths share.
- `Messages`: the `Email` record, the mapping from a fetched message to an
  `Email`, and the walk over MIME parts, over an abstract sequence of parts.
- `MessageParser`: the loops of `parseMessageData`, `parseEmailBody`,
  `processMessagePart` and the attachment search, proved equal to the
  functions of `Messages`.
- `ImapBackend`: the IMAP server the adapter talks to. It is a `Server`
  class with a folder map (name to ascending messages with flags), a call log
  and injectable per-command failures, after the mock backend of the
  adapter's tests. Each command is also a step function over the server's
  `ServerState`.
- `Mailbox`: each adapter operation as a function of the server state. The
  function for an operation composes the step functions in the order the
  adapter issues the commands, and stops where the adapter returns.
- `MailClient`: the adapter as a class `Client` holding the server
  connection. Its methods are proved to take exactly the step the
  `Mailbox` functions describe.
- `MailboxFacts`: the properties of those operations. These cover the search
  window and total, the command sequences and where they stop, and the effect
  on folders.
- `Outbound`: message composition for sending, header canonicalisation,
  `stripHTML`, reply planning, and a `Transport` class that records the
  messages handed to it.
- `Validation`: the six validators of `tools/validate.go`.
- `Arguments`: decoded JSON argument values, `parseAddressList`,
  `requireAddressList`, and the `to`/`cc`/`bcc` reading of the draft and
  send tools.
- `Handlers`: the search, flag, folder, draft and send tool handlers. Each
  one has an argument function (what request the arguments describe), a
  method that reads the arguments step by step and is proved equal to it,
  and a handler method tied to the adapter operation it calls.

The clock, random or time-derived identifiers, `time.Parse` and
`mail.ParseAddress` are parameters:

- `now`: seconds;
- `dateText`: the formatted date;
- `uuid`: the draft Message-ID part;
- `nanos`: the send time in nanoseconds;
- `parseTime`: returns the parsed time, or an error text;
- `parse`: returns `None` for an accepted address, else a reason.

## Model

| member | source | states |
|---|---|---|
| Text.ContainsIff | smtp/client.go:176-183 | the substring test of the reply-all filter (also used for TEXT search) holds exactly when the pattern occurs at some index |
| Text.ToLower | smtp/client.go:195 | no ASCII upper-case letter survives lower-casing, and the length is kept |
| Text.ToLowerIdempotent | smtp/client.go:195 | lower-casing an already lower-cased string changes nothing |
| Text.ToLowerFoldsCase | smtp/client.go:195 | replacing an upper-case letter by its lower-case form does not change the lower-cased string, so the "re:" test ignores letter case |
| Text.ToLowerPrefix | smtp/client.go:195 | lower-casing a prefix gives the prefix of the lower-cased string |
| Text.TrimSpace | imap/client.go:548 | the result is a slice of the input with no leading or trailing white space, and input already trimmed is unchanged |
| Text.ReplaceAllSkip | smtp/client.go:232-236 | text without the pattern's first character passes through the replacement unchanged |
| Text.ReplaceAllHit | smtp/client.go:232-236 | an occurrence of the pattern at the front is replaced and the scan goes on after it |
| Text.ReplaceAllKept | smtp/client.go:232-236 | after text without the pattern's first character, a piece that differs from the pattern at some position is kept |
| Text.ReplaceAllReplaced | smtp/client.go:232-236 | after text without the pattern's first character, the next occurrence of the pattern is replaced |
| Text.JoinSnoc | smtp/client.go:205-210 | joining a list with one more item appends the separator and the item |
| Text.Abbreviate | imap/client.go:513-518 | text of at most 200 characters is unchanged; longer text becomes exactly 200 characters: its first 197 and "..." |
| Decimal.FormatNat | imap/client.go:469 | the decimal form of a count is a non-empty digit string without a leading zero |
| Decimal.FormatNatValue | imap/client.go:469 | the digits produced denote the number formatted |
| Decimal.FormatNatInjective | imap/client.go:732 | different counts give different decimal IDs |
| Decimal.ScanUint32 | imap/client.go:245-248 | a scanned ID is below 2^32 |
| Decimal.ScanFormatted | imap/client.go:245-248 | scanning the decimal form of a UID below 2^32, followed by any non-digit suffix, gives the UID back |
| Decimal.SkipSpace | imap/client.go:245-248 | the `%d` scan skips leading blanks into a suffix of the input that starts with neither a blank nor a newline |
| Decimal.DigitPrefix | imap/client.go:245-248 | the digits read are the longest all-digit prefix of the input |
| Threading.ReplySubjectKeepsSubject | imap/client.go:674-680 | the reply subject ends with the original subject, preceded by at most four characters ("Re: ") |
| Threading.ReplySubjectMarked | smtp/client.go:193-197 | a reply subject always starts with "re:" ignoring case |
| Threading.ReplySubjectIdempotent | smtp/client.go:193-197 | replying to a reply adds no second "Re: " |
| Threading.ReferencesChain | imap/client.go:687-696 | the References value is the Message-ID alone when there are no prior references, else the prior references joined by spaces, then the Message-ID |
| Messages.FormatAddressShape | imap/client.go:604-609 | an address is shown as "Name <mailbox@host>" when it has a personal name, else as "mailbox@host" |
| Messages.ToEmail | imap/client.go:454-457 | a message yields an `Email` exactly when it has an envelope |
| Messages.ToEmailHeaders | imap/client.go:459-504 | the ID is the decimal UID and scans back to it; unread holds iff `\Seen` is absent; From is the first sender shown, or ""; To, CC and BCC keep order and length; References is [In-Reply-To] iff In-Reply-To is non-empty |
| Messages.ToEmailKeepsHeaders | imap/client.go:506-521 | reading the body changes none of the envelope-derived fields |
| Messages.ToEmailSnippet | imap/client.go:506-519 | the snippet has at most 200 characters. Without a body fetch it is the abbreviated subject. With one it is the abbreviated trimmed plain body, else the abbreviated subject when only HTML is present, else empty |
| Messages.ToEmailBody | imap/client.go:525-544 | with a MIME body, BodyPlain and BodyHTML are the last matching inline parts and the attachments are those of the parts |
| Messages.ApplyPartsEffect | imap/client.go:566-601 | the part walk in closed form: the last text/plain part sets BodyPlain, the last text/html part sets BodyHTML, named attachments are appended in order, and nothing else changes |
| Messages.AttachmentsOf | imap/client.go:588-597 | there are no more attachment entries than parts |
| Messages.AttachmentsOfMembers | imap/client.go:588-597 | an entry exists exactly for each attachment part with a non-empty file name, with that part's byte count |
| Messages.AttachmentsNamed | imap/client.go:590 | no attachment entry has an empty file name |
| Messages.FindAttachment | imap/client.go:821-852 | a found attachment has the file name asked for and a size equal to its content length |
| Messages.FindAttachmentFirst | imap/client.go:821-848 | when the first attachment with that name reads without error, that attachment is returned with its content and MIME type |
| Messages.FindAttachmentMissing | imap/client.go:852 | with no attachment of that name and no read error, the result is "attachment '<name>' not found in email" |
| MessageParser.ProcessMessageParts | imap/client.go:566-601 | the loop over the parts computes the part walk: last plain body, last HTML body, attachments appended, other fields unchanged |
| MessageParser.ParseEmailBody | imap/client.go:525-563 | without a literal the email is unchanged; otherwise the body is applied; a snippet within 200 characters stays within 200 |
| MessageParser.FormatAddresses | imap/client.go:480-484 | the loop shows every address, in order |
| MessageParser.IsUnread | imap/client.go:459-466 | the flag scan reports unread exactly when `\Seen` is absent |
| MessageParser.ParseMessageData | imap/client.go:454-522 | the mapping of a fetched message: none without an envelope; unread iff `\Seen` is absent; snippet within 200 characters |
| MessageParser.SearchParts | imap/client.go:821-852 | the loop over the parts finds the attachment that `FindAttachment` describes, including its error cases |
| ImapBackend.CallCountAppend | imap/client_test.go:41-53 | the call counter of each command over a longer log is the sum of the counts of its pieces |
| MailboxFacts.CriteriaMeaning | imap/client.go:162-181 | a message matches the criteria iff it is at or after Since (or within the last n days when Since is absent and n > 0), before Before, unseen when unread-only is asked, and contains the query when one is given |
| MailboxFacts.SinceOverridesLastDays | imap/client.go:164-170 | with an explicit Since, neither the day count nor the clock changes the criteria |
| MailboxFacts.CriteriaIgnorePaging | imap/client.go:162-181 | offset and limit play no part in the criteria |
| MailboxFacts.WindowPastEnd | imap/client.go:195-197 | an offset at or past the number of matches gives an empty window |
| MailboxFacts.WindowSlice | imap/client.go:195-202 | for an offset below the count n, the window is a slice of the UIDs ending at n-offset when offset is positive and at n otherwise; when limit is positive it holds the newest min(limit, end) UIDs of that range, else all of them; it is never empty |
| MailboxFacts.SearchTotal | imap/client.go:149-228 | a successful search reports as total the number of matches in the folder, whatever the paging; an offset at or past the total gives no e-mails; every snippet is within 200 characters |
| MailboxFacts.SearchTotalIgnoresPaging | imap/client.go:189-202 | two searches that differ only in paging report the same total |
| MailboxFacts.CountIsSearchTotal | imap/client.go:289-320 | counting gives the total of the same search without a query |
| MailboxFacts.SelectOk | imap/client.go:154-156 | selecting an existing folder logs one SELECT, selects the folder and reports its size |
| MailboxFacts.LocateOk | imap/client.go:245-248 | after a successful SELECT, a numeric ID gives its UID |
| MailboxFacts.BadIdIssuesOnlySelect | imap/client.go:333-336 | with an ID that does not scan, move, mark-read, flag and permanent delete fail after the SELECT and issue no STORE, MOVE, COPY or EXPUNGE |
| MailboxFacts.BadIdTrashOnlySelects | imap/client.go:439-447 | with an ID that does not scan, a delete to trash selects once for each trash folder tried, then fails |
| MailboxFacts.MoveNative | imap/client.go:384-403 | a native move that succeeds issues only SELECT and MOVE. Moved to another folder, the source then holds no message with the UID, and the destination is its old contents followed by the moved message, renumbered |
| MailboxFacts.MoveFallback | imap/client.go:384-401 | when MOVE fails, the commands are COPY, STORE `\Deleted`, EXPUNGE. The sequence stops at the first that fails and reports it with that step's prefix. A copy already made stays in the destination, and a fallback that succeeds leaves the source with no message of that UID |
| MailboxFacts.PurgeSteps | imap/client.go:390-400 | the purge step issues STORE `\Deleted` then EXPUNGE, stops at the first failure, and touches no folder other than the selected one |
| MailboxFacts.TrashOrder | imap/client.go:439-447 | a non-permanent delete moves to "Deleted Messages" and stops if that succeeds; otherwise it moves to "Trash"; it fails iff both moves fail |
| MailboxFacts.PurgedGone | imap/client.go:427-437 | after STORE `\Deleted` and EXPUNGE no message with that UID remains |
| MailboxFacts.PermanentDelete | imap/client.go:411-437 | a permanent delete issues SELECT, STORE `\Deleted`, EXPUNGE, and stops at the first failure; it succeeds iff STORE and EXPUNGE do, and then no message with that UID remains in the folder |
| MailboxFacts.MarkReadOneStore | imap/client.go:338-351 | marking issues exactly one STORE (adding `\Seen` to mark read, removing it to mark unread), succeeds iff the STORE does, and leaves the message seen iff it was marked read |
| MailboxFacts.MarkReadEffect | imap/client.go:323-356 | marking changes only the marked folder, by storing or removing `\Seen` on that UID; it fails with the select error, the missing-folder error, the ID-format error or "failed to mark email: …", in that order, and otherwise succeeds |
| MailboxFacts.MarkReadTwice | imap/client.go:338-351 | marking a message twice the same way leaves the folders as marking it once, with the same outcome |
| MailboxFacts.UnflagAlwaysPasses | imap/client.go:875-894 | "none" issues one STORE that removes `\Flagged` and the nine keywords, and reports success even when the STORE fails |
| MailboxFacts.InvalidFlagNoStore | imap/client.go:897-929 | an unknown flag type or colour fails after the SELECT, with no STORE |
| MailboxFacts.FlagThenClear | imap/client.go:875-935 | flagging adds `\Flagged` and every keyword of the flag, and clearing with "none" afterwards removes each of them |
| Mailbox.FlagKeywords | imap/client.go:897-929 | the keywords are `\Flagged`, the type keyword and at most one colour keyword, all among those "none" removes; an unknown type or colour is reported as "invalid flag type: …" or "invalid color: …" |
| Mailbox.FolderPath | imap/client.go:946-949 | the path is the name without a parent, else the parent, "/" and the name |
| MailboxFacts.CreateFolderListed | imap/client.go:941-957 | a creation succeeds iff CREATE succeeds; the new folder is then listed and empty; a failed creation changes no folder |
| MailboxFacts.MatchAll | imap/client.go:964-965 | a search without criteria counts every message in the folder |
| MailboxFacts.DeleteFolderGuard | imap/client.go:964-975 | without force, a non-empty folder is reported as not empty, giving (false, count, error); it is counted with SELECT and SEARCH, and no DELETE is issued |
| MailboxFacts.DeleteFolderDone | imap/client.go:960-985 | a deletion that reports no error removed the folder, reports its message count, and calls it empty iff it had no messages; without force it was empty |
| MailboxFacts.DeleteFolderUnreachable | imap/client.go:964-970 | a folder that cannot be selected gives (false, 0, error) and is left alone |
| Mailbox.ChooseDraftFolder | imap/client.go:622-645 | the draft folder is the first of "Drafts", "INBOX.Drafts", "[Gmail]/Drafts" that is listed, else "Drafts" |
| MailboxFacts.DraftNames | imap/client.go:651-712 | the draft's header lines are From, To, then Cc and Bcc when there are such recipients, then In-Reply-To and References for a reply to a message with a Message-ID, then Subject, Date, Message-ID and Content-Type |
| MailboxFacts.DraftHeaderPresence | imap/client.go:654-697 | the draft has a Cc (or Bcc) line iff it has Cc (or Bcc) recipients, and threading lines iff it answers a message with a Message-ID |
| MailboxFacts.DraftHeaderValues | imap/client.go:651-712 | the From line names the sender; the Subject line carries the reply subject; the Message-ID and Content-Type lines are the generated ID and the body type |
| MailboxFacts.DraftReplyThreading | imap/client.go:674-696 | a reply draft's subject is marked as a reply once, and its References end with the original's Message-ID |
| MailboxFacts.GetEmailKeepsFolders | imap/client.go:238-279 | reading a message changes neither the folders nor the folder list |
| MailboxFacts.GetEmailResult | imap/client.go:238-279 | a UID the folder does not hold gives "email not found"; a held message gives its `Email` built with the body, or "failed to parse email" without an envelope |
| MailboxFacts.SaveDraftId | imap/client.go:617-735 | a saved draft is the new last message of the chosen draft folder, flagged `\Draft`. Its text is the composed draft: without reply_to_id, with the given subject and no threading; with one, the original was read and the text is composed from it. Its ID is the folder's new message count |
| MailboxFacts.StoreDraftAppends | imap/client.go:717-734 | an appended draft is the folder's last message, with `\Draft` and the text, and the ID returned is the folder's new size |
| MailboxFacts.SaveDraftListFailure | imap/client.go:626-629 | a failed folder listing is reported, with its prefix twice, after one LIST, and nothing is appended |
| MailboxFacts.GetAttachmentMissingMessage | imap/client.go:761-769 | an attachment of a UID the folder does not hold gives "email not found" after one SELECT and one BODYSTRUCTURE fetch |
| MailboxFacts.GetAttachmentFound | imap/client.go:738-853 | the attachment returned is the first part with that name, with its content, MIME type and byte length |
| MailClient.Client.Close | imap/client.go:111-118 | closing without a connection succeeds; with one it takes the LOGOUT step |
| MailClient.Client.ListFolders | imap/client.go:128-146 | the method takes the LIST step of the function model |
| MailClient.Client.SearchEmails | imap/client.go:149-228 | the method performs the search function's steps and returns its page and total |
| MailClient.Client.GetEmail | imap/client.go:238-279 | the method performs the steps of the read function |
| MailClient.Client.CountEmails | imap/client.go:289-320 | the method performs the steps of the count function |
| MailClient.Client.MarkRead | imap/client.go:323-356 | the method performs the steps of the mark-read function |
| MailClient.Client.MoveEmail | imap/client.go:366-404 | the method performs the move function's steps, including the fallback |
| MailClient.Client.DeleteEmail | imap/client.go:407-451 | the method performs the delete function's steps, permanent or to trash |
| MailClient.Client.FlagEmail | imap/client.go:856-938 | the method performs the steps of the flag function |
| MailClient.Client.CreateFolder | imap/client.go:941-957 | the method performs the steps of the create function |
| MailClient.Client.DeleteFolder | imap/client.go:960-985 | the method performs the delete-folder function's steps and returns its (wasEmpty, count, error) |
| MailClient.Client.SaveDraft | imap/client.go:617-735 | the method performs the steps of the save-draft function |
| MailClient.Client.GetAttachment | imap/client.go:738-853 | the method performs the steps of the attachment function |
| MailClient.FindDraftFolder | imap/client.go:631-645 | the nested search loop picks the folder `ChooseDraftFolder` describes |
| MailClient.CutWindow | imap/client.go:195-202 | reslicing the UID list in place gives the window `Window` describes |
| MailClient.ParseSummaries | imap/client.go:215-224 | collecting the fetched messages gives `Summaries` |
| MailClient.BuildDraftHeaders | imap/client.go:650-712 | writing the header lines one by one gives the list `DraftHeaders` describes |
| Outbound.CanonicalIgnoresCase | smtp/client.go:80 | token field names that differ only in letter case are set as the same field |
| Outbound.CanonicalIdempotent | smtp/client.go:80 | canonicalising a name twice is canonicalising it once, so setting a field twice under one name sets it once |
| Outbound.AddressList | smtp/client.go:50-57 | an empty address list is written as the empty string, and a single address as `<address>` |
| Outbound.AddressListSnoc | smtp/client.go:50-57 | one more address extends the list by `, ` and the address in angle brackets |
| Outbound.SentMessageId | smtp/client.go:75 | the Message-ID is enclosed in angle brackets, contains the account name, and ends with `@smtp.mail.me.com>` |
| Outbound.SentMessageIdDistinct | smtp/client.go:75 | messages sent at different nanosecond times get different Message-IDs |
| Outbound.IdTextDistinct | smtp/client.go:75 | Message-ID texts whose time parts differ are different |
| Outbound.DefaultHeaderNames | smtp/client.go:49-76 | the default header names are exactly Date, From, To, Subject, Message-Id, and Cc when there are Cc recipients |
| Outbound.BodyPartsShape | smtp/client.go:87-147 | two body parts exactly under multipart/alternative, one under text/plain; the first part is always plain text, free of tag brackets for an HTML body; the last part is the body as given |
| Outbound.SetCustomFields | smtp/client.go:78-81 | after the loop every custom field is set over the defaults under its canonical name, and untouched defaults keep their values |
| Outbound.Compose | smtp/client.go:43-153 | the message composed has the sender, the envelope `to ++ cc ++ bcc`, the header shape above and the body parts |
| Outbound.BccNotInHeader | smtp/client.go:68-69 | no Bcc field is written (unless a custom field is named Bcc), and the Bcc addresses are the envelope's tail |
| Outbound.CcPresence | smtp/client.go:59-66 | a Cc field is written iff there are Cc recipients or a custom Cc field, and holds the Cc addresses unless overridden |
| Outbound.CustomOverrides | smtp/client.go:78-81 | a custom field whose canonical name no other custom field shares replaces the default of that name; Content-Type is always the top-level type |
| Outbound.PlainHeader | smtp/client.go:49-89 | without custom fields the header is exactly the default header plus the content type |
| Outbound.BreakTagsPlain | smtp/client.go:232-236 | text with no `<` is unaffected by the break-tag replacements |
| Outbound.BreakTagsBreak | smtp/client.go:232-236 | after text with no `<`, a `<br>` becomes one newline and the rest is rendered on its own |
| Outbound.BreakTagsParagraph | smtp/client.go:232-236 | after text with no `<`, a `</p>` becomes two newlines and the rest is rendered on its own |
| Outbound.BreakTagsBlock | smtp/client.go:232-236 | after text with no `<`, a `</div>` becomes one newline and the rest is rendered on its own |
| Outbound.DropTags | smtp/client.go:239-253 | the tag-dropping walk never outputs `<` or `>` |
| Outbound.StripHtmlNoBrackets | smtp/client.go:230-256 | the plain-text rendering of HTML contains no angle bracket |
| Outbound.DropTagsPlain | smtp/client.go:241-253 | text without brackets passes through the tag walk unchanged |
| Outbound.DropTagsInside | smtp/client.go:242-249 | inside a tag, everything up to and including the next `>` is dropped |
| Outbound.DropTagsSpan | smtp/client.go:241-253 | a tag after plain text disappears, brackets and all |
| Outbound.StripHtmlPlain | smtp/client.go:230-256 | text with no brackets and no surrounding white space is its own plain-text rendering |
| Outbound.RemoveTags | smtp/client.go:239-253 | the loop with the in-tag flag computes `DropTags` |
| Outbound.StripHtmlText | smtp/client.go:230-256 | the whole method computes `StripHtml`, and its result has no angle bracket |
| Outbound.OthersMembers | smtp/client.go:175-185 | an address survives the self filter iff it is in the list and does not contain the account name (case-sensitive) |
| Outbound.ThreadingFields | smtp/client.go:200-211 | In-Reply-To and References are set exactly when the original has a Message-ID |
| Outbound.ThreadingHeaders | smtp/client.go:199-211 | building the headers one field at a time yields exactly the threading fields: In-Reply-To and the References chain when the original has a Message-ID, nothing otherwise |
| Outbound.ReplyCcMembers | smtp/client.go:172-191 | an address is copied iff it was given as Cc, or reply-all is on and it is an original To or Cc address other than the account's; the given Cc addresses come last, in order; without reply-all the Cc is exactly the given one |
| Outbound.ReplyThreading | smtp/client.go:199-216 | In-Reply-To names the original and References extends its chain by its Message-ID, unless a custom field replaces them; without a Message-ID only the custom fields are set |
| Outbound.OmitSelf | smtp/client.go:175-185 | the filtering loop keeps what `Others` keeps |
| Outbound.PlanReply | smtp/client.go:168-224 | the reply goes to the original sender, with the reply subject and the reply Cc, Bcc, HTML and threading options |
| Outbound.Transport.Submit | smtp/client.go:159-162 | a submission is recorded unless a failure is injected, in which case that failure is returned and nothing is recorded |
| Outbound.SmtpClient.SendEmail | smtp/client.go:43-165 | a refused submission is reported as "failed to send email: …" and records nothing; otherwise exactly one message, the composed one, is added |
| Outbound.SmtpClient.ReplyToEmail | smtp/client.go:168-227 | the reply is sent from the account to the original sender, with the reply subject and options, as one composed message |
| Validation.ValidateSavePath | tools/validate.go:15-37 | a save path is accepted iff it is empty, or absolute and free of NUL and ".."; each rejection carries its message, in the order of the checks |
| Validation.ValidateFolderName | tools/validate.go:40-68 | a folder name is accepted iff it is non-empty and free of "..", `*`, `%` and control characters; NUL is reported as a null byte before the control-character check |
| Validation.ValidateEmailId | tools/validate.go:71-84 | an ID is accepted iff it is non-empty and has no character below space and no DEL; it need not be numeric |
| Validation.ValidateBodySize | tools/validate.go:87-92 | a body is accepted iff it has at most 10·1024·1024 characters |
| Validation.ValidateSubjectSize | tools/validate.go:95-100 | a subject is accepted iff it has at most 998 characters |
| Validation.ValidateFilename | tools/validate.go:103-122 | a file name is accepted iff it is non-empty and free of NUL, `/`, `\` and ".."; each rejection carries its message, in the order of the checks |
| Validation.AcceptedFilenameIsComponent | tools/validate.go:103-122 | an accepted file name is a single path component other than ".." |
| Validation.AcceptedFolderNameIsOneLine | tools/validate.go:59-65 | an accepted folder name contains no line break and no NUL |
| Validation.AcceptedIdHasNoControl | tools/validate.go:76-82 | an accepted ID has no control character, DEL included |
| Arguments.NonEmptyStrings | tools/helpers.go:22-27 | the strings kept from an array are non-empty and no more than its elements |
| Arguments.NonEmptyStringsMembers | tools/helpers.go:22-27 | a string is kept iff it is a non-empty string element of the array |
| Arguments.AddressCheck | tools/helpers.go:33-37 | no report iff the parser accepts every address; otherwise the report names the first rejected address and the parser's reason |
| Arguments.AddressListFacts | tools/helpers.go:10-40 | absent or null gives no addresses; every address returned is non-empty and accepted; an array returns exactly its non-empty strings; "" gives no addresses; any other type gives "<key> must be a string or array of strings" |
| Arguments.RequireAddressList | tools/helpers.go:43-52 | the list is the optional-list result, except that an empty list is "<key> is required"; a result is never empty |
| Arguments.CollectStrings | tools/helpers.go:22-27 | the loop collects exactly the non-empty strings, in order |
| Arguments.CheckAddresses | tools/helpers.go:33-37 | the loop stops at the first rejected address with the report `AddressCheck` describes |
| Arguments.ParseAddressList | tools/helpers.go:10-40 | the method computes the address-list function |
| Arguments.ToList | tools/draft_email.go:30-53 | a `to` list is non-empty, of non-empty strings; its errors are "to is required" and the type error, and the type error arises iff the value is neither string nor array (a missing `to` included) |
| Arguments.OptionalList | tools/draft_email.go:65-79 | a Cc or Bcc list holds non-empty strings, and a value of another type gives no addresses |
| Arguments.OptionalListIgnoresWrongType | tools/send_email.go:64-78 | a numeric Cc is silently ignored by the send and draft tools, while the address-list helper reports it as a type error |
| Arguments.ReadTo | tools/send_email.go:29-52 | the method computes `ToList` |
| Arguments.ReadOptionalList | tools/send_email.go:64-78 | the method computes `OptionalList` |
| Handlers.FolderArg | tools/search_emails.go:19-22 | the folder is never empty; it is the `folder` argument when that is a non-empty string, and "INBOX" otherwise |
| Handlers.SearchRequestFacts | tools/search_emails.go:18-68 | a request is refused iff since or before is malformed. Otherwise: the folder and query are passed; offset 0; the limit is 50 by default, the whole part of a positive limit below 200, and 200 for a positive limit of 200 or more; a since sets Since and clears the day count; without a since, the day count is the whole part of a positive last_days, 30 by default; a before sets Before, and none leaves it unset; unread_only defaults to false |
| Handlers.SearchArgs | tools/search_emails.go:27-68 | filling in the filter record field by field gives the request `SearchRequestOf` describes |
| Handlers.SearchEmailsHandler | tools/search_emails.go:14-74 | rejected arguments give their error and leave the server untouched; otherwise the result is the search on the request |
| Handlers.FlagRequestOf | tools/flag_email.go:17-60 | errors come in the handler's order: "email_id is required", "flag is required", the flag-set error, then the colour-set error; a request is accepted iff it has an ID, a known flag and an empty or known colour, and is then exactly the ID, flag, folder (INBOX by default) and colour given |
| Handlers.FlagRequestAgreesWithKeywords | tools/flag_email.go:29-60 | every accepted flag and colour maps to keywords, and every mappable pair is accepted |
| Handlers.FlagEmailHandler | tools/flag_email.go:12-97 | a rejected request gives its error and reaches no server; otherwise the result is the flag operation's outcome |
| Handlers.CreateFolderHandler | tools/folder.go:13-51 | a missing name is "name parameter is required" with no command; otherwise the folder is created under its full path, and a failure is "failed to create folder: …" |
| Handlers.CreatedPathExists | tools/folder.go:27-43 | the path reported after a successful creation exists on the server |
| Handlers.DeleteFolderHandler | tools/folder.go:55-107 | a missing name is an error with no command; `force` defaults to false; the result is the deletion's result |
| Handlers.DeleteFolderOutcomes | tools/folder.go:74-85 | without force a non-empty folder gives the structured response with its message count and is not deleted |
| Handlers.DeleteFolderUnreachableIsError | tools/folder.go:86 | a folder that cannot be selected gives an error result, whatever `force` says |
| Handlers.RecipientsFacts | tools/send_email.go:29-108 | accepted recipients are non-empty addresses the parser accepts, with at least one To; a bad `to` is reported as such; Cc and Bcc are the optional lists |
| Handlers.ReadRecipients | tools/draft_email.go:30-109 | reading and checking To, then Cc, then Bcc gives `RecipientsOf` |
| Handlers.DraftRequestOf | tools/draft_email.go:20-124 | subject, then body, are required, then a recipient error is reported as such; an accepted draft has the recipients' To, Cc and Bcc, the subject and body given, `html` false by default, and the reply ID given; a reply folder is kept only when a reply_to_id is given |
| Handlers.DraftArgs | tools/draft_email.go:19-124 | filling in the options one by one gives `DraftRequestOf` |
| Handlers.BuildPreview | tools/draft_email.go:132-144 | the preview is the abbreviated preview text: at most 200 characters, and unchanged when it is short enough |
| Handlers.DraftEmailHandler | tools/draft_email.go:15-163 | rejected arguments give their error and reach no server; otherwise the draft is saved, and a failure is "failed to save draft: …" |
| Handlers.SendRequestOf | tools/send_email.go:19-113 | subject, then body, are required, then a recipient error is reported as such; an accepted message has the recipients' To, Cc and Bcc and the subject and body given; no custom headers are passed; `html` defaults to false |
| Handlers.RequestsCheckAddresses | tools/draft_email.go:56-109 | an accepted draft or message has at least one To, and every To, Cc and Bcc address is non-empty and accepted by the address parser |
| Handlers.SendArgs | tools/send_email.go:18-113 | reading the send arguments gives `SendRequestOf` |
| Handlers.SendEmailHandler | tools/send_email.go:14-126 | rejected arguments send nothing; a refused submission is wrapped once more; otherwise exactly the composed message is submitted and confirmed |
| Handlers.SentThroughToolHidesBcc | tools/send_email.go:116-119 | a message sent through the send tool has no Bcc field, exactly the default header plus its content type, and the envelope To, Cc, Bcc |

## Left out

- Concurrency: the adapter's mutex and the goroutine-and-channel fetch pattern. Each operation is a sequential method of the client class.
- Connecting, TLS, login, the INBOX liveness check and SMTP authentication (`NewClient` in both adapters). These are network I/O.
- The SMTP port and the password. The `Transport` class stands for `smtp.SendMail`.
- MIME writing by the go-message writer. A sent message is modelled as the header map, the envelope and the body parts; multipart boundaries and the writer's own errors (smtp/client.go:91-143) are not modelled.
- Parsing of RFC 5322 and MIME. Parsing a body literal is replaced by a sequence of tagged parts that ends with an optional part error.
- Address syntax, which `mail.ParseAddress` checks, and RFC 3339 parsing, which `time.Parse` does. Both are parameters.
- The clock and the day arithmetic. `time.Now` is the parameter `now`, and `AddDate(0, 0, -n)` is `now - n·86400`.
- Generated values. The uuid and nanosecond parts of Message-IDs are parameters, and so is the RFC 1123Z date text.
- `filepath.Clean` in `validateSavePath`. "Absolute" is approximated by "starts with /", and NUL and ".." are checked on the raw path.
- Byte lengths. Go's `len` counts bytes; the model counts characters. This affects snippets, the preview and the body and subject limits.
- Lower-casing and white-space trimming cover ASCII only. Header canonicalisation covers field names made of token characters; other names are kept as given, as Go does.
- JSON marshalling and every "failed to format response" path. A response is a map from keys to values.
- The pass-through handlers `get_email`, `list_folders`, `count_emails`, `move_email`, `delete_email`, `mark_read`, `get_attachment` (including base64 and file writing) and `reply_email`. They only supply defaults, forward and format.
- The server's own behaviour is a model, not a claim about iCloud: SEARCH date granularity, UID assignment, the implicit `\Seen` on fetch, and error texts.
- `main.go` and `config/`: tool registration and environment loading.
- The order in which Go iterates over a map. It is unspecified, so custom headers are set in any order; equal canonical names may leave either value, and `Outbound.CustomOverrides` states only the case of a unique name.
- Outbound.SetCustomFields: states an overlay, not a specific order of assignments, because the order of Go map iteration is unspecified.
- Handlers.SearchEmailsHandler: calls the search with three results. The handler's source (tools/search_emails.go:71) takes two of the three values that `SearchEmails` returns and would not compile; the response's count is the number of e-mails returned.
- A missing `to` argument in the draft and send tools gives "to must be a string or array of strings", as the code does. It does not give "to is required".
- The reply-all self filter is the case-sensitive substring test of the code.
- Two errors carry their prefix twice, as in the code: a failed folder listing in `SaveDraft`, and a refused submission in the send tool.
- A `last_days` or `limit` strictly between 0 and 1 is positive but truncates to 0, as `int(float64)` does, so the search sees 0.
- Handlers.LimitArg: takes the whole part of an unbounded number and caps it at 200. Go's `int(limit)` (tools/search_emails.go:40) is implementation-dependent for a number outside the 64-bit range. On amd64 it yields the most negative integer, which skips the cap and the `Limit > 0` test at imap/client.go:200, so every match is returned. The model does not capture that case.
- Handlers.DaysArg: takes the whole part of an unbounded number. Go's `int(lastDays)` (tools/search_emails.go:35) is implementation-dependent outside the 64-bit range. On amd64 it yields a negative count, which turns the last-days bound off, while the model keeps a huge day count.
- Outbound.AddressList: writes every address as `<address>`. Go's `mail.Address.String` quotes a local part that is not a plain atom. For a reply to a From in display form such as `Name <x@y>`, Go writes `<"Name <x"@y>>` where the model writes `<Name <x@y>>`. The same string is also the envelope recipient. This is part of the MIME writing the model leaves out.
