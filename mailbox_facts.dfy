/** What the mailbox operations promise, stated over the server state
    before and after a call: result windows and totals, the command
    sequences the adapter issues (and where it stops), and the effect on the
    folders. */
module MailboxFacts {
  import opened Results
  import opened Text
  import opened Decimal
  import opened Messages
  import opened Threading
  import opened ImapBackend
  import opened Mailbox

  // ---------------------------------------------------------------------
  // Criteria.

  /** A message matches the criteria built from the filters exactly when it
      is recent enough (by the explicit date, else by the day count), older
      than `Before`, unread when only unread messages are asked for, and
      contains the query when there is one. */
  lemma CriteriaMeaning(f: Filters, now: int, query: string, m: Stored)
    ensures Matches(m, BuildCriteria(f, now, query)) <==>
      && (f.since.Some? ==> m.date >= f.since.value)
      && (f.since.None? && f.lastDays > 0 ==> m.date >= now - f.lastDays * SecondsPerDay)
      && (f.before.Some? ==> m.date < f.before.value)
      && (f.unreadOnly ==> SeenFlag !in m.flags)
      && (query != "" ==> Contains(m.text, query))
  {
    var c := BuildCriteria(f, now, query);
    assert f.unreadOnly ==> c.withoutFlags == [SeenFlag];
    assert query != "" ==> c.text == [query];
  }

  /** With an explicit `Since` the day count and the clock play no part. */
  lemma SinceOverridesLastDays(f: Filters, days: int, now: int, later: int, query: string)
    requires f.since.Some?
    ensures BuildCriteria(f, now, query) == BuildCriteria(f.(lastDays := days), later, query)
  {
  }

  /** Paging plays no part in the criteria. */
  lemma CriteriaIgnorePaging(f: Filters, offset: int, limit: int, now: int, query: string)
    ensures BuildCriteria(f, now, query) == BuildCriteria(f.(offset := offset, limit := limit), now, query)
  {
  }

  // ---------------------------------------------------------------------
  // The result window.

  /** Nothing is fetched when the offset reaches past the result. */
  lemma WindowPastEnd(uids: seq<nat>, offset: int, limit: int)
    requires offset >= |uids|
    ensures Window(uids, offset, limit) == []
  {
  }

  /** Otherwise the window is a slice ending `offset` UIDs before the
      newest when `offset` is positive, and at the newest when it is not;
      when `limit` is positive it holds at most `limit` UIDs, the newest
      of that range. */
  lemma WindowSlice(uids: seq<nat>, offset: int, limit: int)
    requires |uids| > 0 && offset < |uids|
    ensures var end := if offset > 0 then |uids| - offset else |uids|;
            var start := if limit > 0 && end > limit then end - limit else 0;
            && Window(uids, offset, limit) == uids[start..end]
            && |Window(uids, offset, limit)| == (if limit > 0 && limit < end then limit else end)
            && Window(uids, offset, limit) != []
  {
    var end := if offset > 0 then |uids| - offset else |uids|;
    var kept := if offset > 0 then uids[..|uids| - offset] else uids;
    assert kept == uids[0..end];
    if limit > 0 && end > limit {
      assert kept[end - limit..] == uids[end - limit..end];
    }
  }

  // ---------------------------------------------------------------------
  // Search and count.

  /** A successful SELECT of an existing folder. */
  lemma SelectOk(st: ServerState, folder: string)
    requires SelectCmd !in st.failures && folder in st.folders
    ensures SelectStep(st, folder) == (Logged(st, SelectCall(folder)).(selected := Some(folder)), Ok(|st.folders[folder]|))
  {
  }

  /** The total of a successful search counts every match in the folder,
      whatever the offset and limit; an offset at or past the total gives an
      empty page. */
  lemma SearchTotal(st: ServerState, folder: string, query: string, f: Filters, now: int)
    ensures var r := SearchOp(st, folder, query, f, now).1;
      r.Ok? ==> && folder in st.folders
                && r.value.total == |MatchingUids(st.folders[folder], BuildCriteria(f, now, query))|
                && (f.offset >= r.value.total ==> r.value.emails == [])
                && (forall e :: e in r.value.emails ==> |e.snippet| <= SnippetLimit)
  {
    var (s1, sel) := SelectStep(st, folder);
    if sel.Ok? {
      var (s2, found) := SearchStep(s1, BuildCriteria(f, now, query));
      if found.Ok? {
        assert s1.folders == st.folders && s1.selected == Some(folder);
        var w := Window(found.value, f.offset, f.limit);
        if f.offset >= |found.value| {
          WindowPastEnd(found.value, f.offset, f.limit);
        }
      }
    }
  }

  /** Paging changes the page, never the total. */
  lemma SearchTotalIgnoresPaging(st: ServerState, folder: string, query: string, f: Filters, now: int, offset: int, limit: int)
    ensures var a := SearchOp(st, folder, query, f, now).1;
            var b := SearchOp(st, folder, query, f.(offset := offset, limit := limit), now).1;
            a.Ok? && b.Ok? ==> a.value.total == b.value.total
  {
    SearchTotal(st, folder, query, f, now);
    SearchTotal(st, folder, query, f.(offset := offset, limit := limit), now);
    CriteriaIgnorePaging(f, offset, limit, now, query);
  }

  /** Counting is an unqueried search's total. */
  lemma CountIsSearchTotal(st: ServerState, folder: string, f: Filters, now: int)
    ensures var r := SearchOp(st, folder, "", f, now).1;
            r.Ok? ==> CountOp(st, folder, f, now).1 == Ok(r.value.total)
  {
  }

  // ---------------------------------------------------------------------
  // Single-message operations.

  lemma LocateOk(st: ServerState, folder: string, id: string)
    requires SelectCmd !in st.failures && folder in st.folders && ScanUint32(id).Ok?
    ensures Locate(st, folder, id) == (Logged(st, SelectCall(folder)).(selected := Some(folder)), Ok(ScanUint32(id).value))
  {
  }

  /** An ID that does not scan as a 32-bit number is refused right after the
      SELECT: nothing else is asked of the server. */
  lemma BadIdIssuesOnlySelect(st: ServerState, folder: string, to: string, id: string, read: bool, flagType: string, color: string)
    requires ScanUint32(id).Err?
    ensures MoveOp(st, folder, to, id).1.Fail? && MoveOp(st, folder, to, id).0.calls == st.calls + [SelectCall(folder)]
    ensures MarkReadOp(st, folder, id, read).1.Fail? && MarkReadOp(st, folder, id, read).0.calls == st.calls + [SelectCall(folder)]
    ensures FlagOp(st, folder, id, flagType, color).1.Fail?
    ensures FlagOp(st, folder, id, flagType, color).0.calls == st.calls + [SelectCall(folder)]
    ensures DeleteEmailOp(st, folder, id, true).1.Fail?
    ensures DeleteEmailOp(st, folder, id, true).0.calls == st.calls + [SelectCall(folder)]
  {
  }

  /** Without a usable ID a non-permanent delete only selects, once per
      trash folder tried, and fails. */
  lemma BadIdTrashOnlySelects(st: ServerState, folder: string, id: string)
    requires ScanUint32(id).Err?
    ensures DeleteEmailOp(st, folder, id, false).1.Fail?
    ensures DeleteEmailOp(st, folder, id, false).0.calls == st.calls + [SelectCall(folder), SelectCall(folder)]
  {
    var s1 := MoveOp(st, folder, TrashFolder, id).0;
    assert s1.calls == st.calls + [SelectCall(folder)];
    assert MoveOp(s1, folder, AlternateTrash, id).0.calls == s1.calls + [SelectCall(folder)];
  }

  /** The command sequence of a move with fallback. */
  function FallbackPlan(from: string, uid: nat, to: string): seq<Call>
  {
    [SelectCall(from), MoveCall([uid], to), CopyCall([uid], to),
     StoreCall([uid], AddFlags, [DeletedFlag]), ExpungeCall]
  }

  /** A native move that succeeds is the whole operation: no COPY, STORE or
      EXPUNGE follows. Moved to another folder, the message leaves the
      source and is added, renumbered, at the end of the destination. */
  lemma MoveNative(st: ServerState, from: string, to: string, id: string)
    requires SelectCmd !in st.failures && from in st.folders && ScanUint32(id).Ok?
    requires MoveCmd !in st.failures && to in st.folders
    ensures MoveOp(st, from, to, id).1 == Pass
    ensures MoveOp(st, from, to, id).0.calls == st.calls + FallbackPlan(from, ScanUint32(id).value, to)[..2]
    ensures var uid := ScanUint32(id).value;
            var s := MoveOp(st, from, to, id).0;
      from != to ==>
        && from in s.folders && (forall m :: m in s.folders[from] ==> m.uid != uid)
        && to in s.folders && s.folders[to] == Appended(st.folders[to], Picked(st.folders[from], [uid]))
  {
    LocateOk(st, from, id);
  }

  /** When the native move fails the fallback runs COPY, STORE `\Deleted`,
      EXPUNGE and stops at the first step that fails, reporting it; a copy
      already made stays in the destination, and once the whole fallback
      succeeds the source holds no message with the UID. */
  lemma MoveFallback(st: ServerState, from: string, to: string, id: string)
    requires SelectCmd !in st.failures && from in st.folders && ScanUint32(id).Ok?
    requires MoveCmd in st.failures
    ensures var uid := ScanUint32(id).value;
            var plan := FallbackPlan(from, uid, to);
            var (s, r) := MoveOp(st, from, to, id);
      && (CopyCmd in st.failures ==>
            s.calls == st.calls + plan[..3] && r == Fail("failed to copy email: " + st.failures[CopyCmd]))
      && (CopyCmd !in st.failures && to !in st.folders ==>
            s.calls == st.calls + plan[..3] && r == Fail("failed to copy email: " + NoSuchMailbox(to)))
      && (CopyCmd !in st.failures && to in st.folders ==>
            s.folders[to] == Appended(st.folders[to], Picked(st.folders[from], [uid])) || from == to)
      && (CopyCmd !in st.failures && to in st.folders && StoreCmd in st.failures ==>
            s.calls == st.calls + plan[..4] && r == Fail("failed to mark email as deleted: " + st.failures[StoreCmd]))
      && (CopyCmd !in st.failures && to in st.folders && StoreCmd !in st.failures && ExpungeCmd in st.failures ==>
            s.calls == st.calls + plan && r == Fail("failed to expunge: " + st.failures[ExpungeCmd]))
      && (CopyCmd !in st.failures && to in st.folders && StoreCmd !in st.failures && ExpungeCmd !in st.failures ==>
            s.calls == st.calls + plan && r == Pass)
      && (r.Pass? ==> from in s.folders && forall m :: m in s.folders[from] ==> m.uid != uid)
  {
    LocateOk(st, from, id);
    var uid := ScanUint32(id).value;
    var plan := FallbackPlan(from, uid, to);
    var (s1, loc) := Locate(st, from, id);
    var (s2, mv) := MoveStep(s1, [uid], to);
    var (s3, cp) := CopyStep(s2, [uid], to);
    assert s3.calls == st.calls + plan[..3];
    assert MoveOp(st, from, to, id) == if cp.Fail? then (s3, Fail("failed to copy email: " + cp.msg)) else PurgeOp(s3, uid);
    if cp.Pass? {
      assert HasSelection(s3) && s3.selected.value == from;
      PurgeSteps(s3, uid);
      PurgedGone(s3.folders[from], uid);
      assert st.calls + plan[..3] + [plan[3]] == st.calls + plan[..4];
      assert st.calls + plan[..3] + [plan[3], plan[4]] == st.calls + plan;
    }
  }

  /** The purge of a selected folder's message: STORE `\Deleted`, then
      EXPUNGE, stopping at the first failure; no other folder changes. */
  lemma PurgeSteps(st: ServerState, uid: nat)
    requires HasSelection(st)
    ensures var (s, r) := PurgeOp(st, uid);
      && (StoreCmd in st.failures ==>
            s.calls == st.calls + [StoreCall([uid], AddFlags, [DeletedFlag])]
            && r == Fail("failed to mark email as deleted: " + st.failures[StoreCmd]))
      && (StoreCmd !in st.failures && ExpungeCmd in st.failures ==>
            s.calls == st.calls + [StoreCall([uid], AddFlags, [DeletedFlag]), ExpungeCall]
            && r == Fail("failed to expunge: " + st.failures[ExpungeCmd]))
      && (StoreCmd !in st.failures && ExpungeCmd !in st.failures ==>
            s.calls == st.calls + [StoreCall([uid], AddFlags, [DeletedFlag]), ExpungeCall] && r == Pass)
      && (forall n :: n in st.folders && n != st.selected.value ==> n in s.folders && s.folders[n] == st.folders[n])
  {
  }

  /** A move to a trash folder is not retried once it succeeds: "Trash" is
      tried only after "Deleted Messages" failed, and the delete fails only
      when both moves do. */
  lemma TrashOrder(st: ServerState, folder: string, id: string)
    ensures var (s1, first) := MoveOp(st, folder, TrashFolder, id);
      && (first.Pass? ==> DeleteEmailOp(st, folder, id, false) == (s1, Pass))
      && (first.Fail? ==> DeleteEmailOp(st, folder, id, false).0 == MoveOp(s1, folder, AlternateTrash, id).0)
      && (DeleteEmailOp(st, folder, id, false).1.Fail? <==>
            first.Fail? && MoveOp(s1, folder, AlternateTrash, id).1.Fail?)
  {
  }

  /** Every message with `uid` is flagged `\Deleted` by the STORE, so EXPUNGE
      leaves none of them. */
  lemma PurgedGone(ms: seq<Stored>, uid: nat)
    ensures forall m :: m in Undeleted(Restored(ms, [uid], AddFlags, [DeletedFlag])) ==> m.uid != uid
  {
    var rs := Restored(ms, [uid], AddFlags, [DeletedFlag]);
    forall k | 0 <= k < |rs| && rs[k].uid == uid ensures DeletedFlag in rs[k].flags {
      assert rs[k] == ms[k].(flags := AddAll(ms[k].flags, [DeletedFlag]));
    }
    forall m | m in Undeleted(rs) ensures m.uid != uid {
      var k :| 0 <= k < |rs| && rs[k] == m;
    }
  }

  /** A permanent delete issues SELECT, STORE `\Deleted`, EXPUNGE, stops at
      the first failure, and when it succeeds the folder holds no message
      with that UID. */
  lemma PermanentDelete(st: ServerState, folder: string, id: string)
    requires SelectCmd !in st.failures && folder in st.folders && ScanUint32(id).Ok?
    ensures var uid := ScanUint32(id).value;
            var (s, r) := DeleteEmailOp(st, folder, id, true);
      && (StoreCmd in st.failures ==>
            s.calls == st.calls + [SelectCall(folder), StoreCall([uid], AddFlags, [DeletedFlag])] && r.Fail?)
      && (StoreCmd !in st.failures ==>
            s.calls == st.calls + [SelectCall(folder), StoreCall([uid], AddFlags, [DeletedFlag]), ExpungeCall])
      && (r.Pass? <==> StoreCmd !in st.failures && ExpungeCmd !in st.failures)
      && (r.Pass? ==> folder in s.folders && forall m :: m in s.folders[folder] ==> m.uid != uid)
  {
    LocateOk(st, folder, id);
    PurgedGone(st.folders[folder], ScanUint32(id).value);
  }

  /** Marking issues exactly one STORE, adding `\Seen` to mark read and
      removing it to mark unread; afterwards the message is seen exactly
      when it was marked read. */
  lemma MarkReadOneStore(st: ServerState, folder: string, id: string, read: bool)
    requires SelectCmd !in st.failures && folder in st.folders && ScanUint32(id).Ok?
    ensures var uid := ScanUint32(id).value;
            var (s, r) := MarkReadOp(st, folder, id, read);
      && s.calls == st.calls + [SelectCall(folder), StoreCall([uid], if read then AddFlags else RemoveFlags, [SeenFlag])]
      && (r.Pass? <==> StoreCmd !in st.failures)
      && (r.Pass? ==> folder in s.folders && forall m :: m in s.folders[folder] && m.uid == uid ==> (SeenFlag in m.flags <==> read))
  {
    LocateOk(st, folder, id);
    var uid := ScanUint32(id).value;
    if StoreCmd !in st.failures {
      var mode := if read then AddFlags else RemoveFlags;
      var rs := Restored(st.folders[folder], [uid], mode, [SeenFlag]);
      forall m | m in rs && m.uid == uid ensures SeenFlag in m.flags <==> read {
        var k :| 0 <= k < |rs| && rs[k] == m;
        assert rs[k].flags == ApplyStore(st.folders[folder][k].flags, mode, [SeenFlag]);
      }
    }
  }

  /** Adding flags that are all present already changes nothing. */
  lemma {:induction false} AddPresent(flags: seq<string>, add: seq<string>)
    requires forall f :: f in add ==> f in flags
    ensures AddAll(flags, add) == flags
    decreases |add|
  {
    if add != [] {
      assert forall f :: f in add[1..] ==> f in add;
      AddPresent(flags, add[1..]);
    }
  }

  /** Removing flags none of which is present changes nothing. */
  lemma {:induction false} RemoveAbsent(flags: seq<string>, remove: seq<string>)
    requires forall f :: f in flags ==> f !in remove
    ensures RemoveAll(flags, remove) == flags
    decreases |flags|
  {
    if flags != [] {
      assert forall f :: f in flags[1..] ==> f in flags;
      RemoveAbsent(flags[1..], remove);
      assert [flags[0]] + flags[1..] == flags;
    }
  }

  /** Setting or clearing one flag a second time changes no message. */
  lemma RestoredTwice(ms: seq<Stored>, uid: nat, mode: StoreMode, flag: string)
    ensures var rs := Restored(ms, [uid], mode, [flag]);
      Restored(rs, [uid], mode, [flag]) == rs
  {
    var rs := Restored(ms, [uid], mode, [flag]);
    forall i | 0 <= i < |rs| && rs[i].uid in [uid]
      ensures ApplyStore(rs[i].flags, mode, [flag]) == rs[i].flags
    {
      assert rs[i].flags == ApplyStore(ms[i].flags, mode, [flag]);
      if mode == AddFlags {
        AddPresent(rs[i].flags, [flag]);
      } else {
        RemoveAbsent(rs[i].flags, [flag]);
      }
    }
  }

  /** The whole effect of marking: only the marked message's folder
      changes, by the STORE of `\Seen`, and the outcome depends only on the
      injected failures, whether the folder exists and the ID. */
  lemma MarkReadEffect(st: ServerState, folder: string, id: string, read: bool)
    ensures var (s, r) := MarkReadOp(st, folder, id, read);
            var ok := SelectCmd !in st.failures && folder in st.folders && ScanUint32(id).Ok?;
      && s.failures == st.failures
      && s.folders == (if ok && StoreCmd !in st.failures then
                         st.folders[folder := Restored(st.folders[folder], [ScanUint32(id).value],
                                                       if read then AddFlags else RemoveFlags, [SeenFlag])]
                       else st.folders)
      && r == (if SelectCmd in st.failures then Fail("failed to select folder " + folder + ": " + st.failures[SelectCmd])
               else if folder !in st.folders then Fail("failed to select folder " + folder + ": " + NoSuchMailbox(folder))
               else if ScanUint32(id).Err? then Fail("invalid email ID format: " + ScanUint32(id).msg)
               else if StoreCmd in st.failures then Fail("failed to mark email: " + st.failures[StoreCmd])
               else Pass)
  {
    var (a, loc) := Locate(st, folder, id);
    if loc.Ok? {
      assert HasSelection(a) && a.selected.value == folder && a.folders == st.folders;
    }
  }

  /** Marking a message twice the same way leaves the folders as marking it
      once did, and reports the same outcome. */
  lemma MarkReadTwice(st: ServerState, folder: string, id: string, read: bool)
    ensures var (s1, r1) := MarkReadOp(st, folder, id, read);
      && MarkReadOp(s1, folder, id, read).0.folders == s1.folders
      && MarkReadOp(s1, folder, id, read).1 == r1
  {
    var s1 := MarkReadOp(st, folder, id, read).0;
    MarkReadEffect(st, folder, id, read);
    MarkReadEffect(s1, folder, id, read);
    if SelectCmd !in st.failures && folder in st.folders && ScanUint32(id).Ok? && StoreCmd !in st.failures {
      RestoredTwice(st.folders[folder], ScanUint32(id).value, if read then AddFlags else RemoveFlags, SeenFlag);
    }
  }

  /** Clearing flags removes every keyword and reports success even when the
      STORE fails. */
  lemma UnflagAlwaysPasses(st: ServerState, folder: string, id: string, color: string)
    requires SelectCmd !in st.failures && folder in st.folders && ScanUint32(id).Ok?
    ensures FlagOp(st, folder, id, "none", color).1 == Pass
    ensures FlagOp(st, folder, id, "none", color).0.calls
      == st.calls + [SelectCall(folder), StoreCall([ScanUint32(id).value], RemoveFlags, NoneFlags)]
  {
    LocateOk(st, folder, id);
  }

  /** An unknown flag type or colour is refused before any STORE. */
  lemma InvalidFlagNoStore(st: ServerState, folder: string, id: string, flagType: string, color: string)
    requires flagType != "none" && FlagKeywords(flagType, color).Err?
    ensures FlagOp(st, folder, id, flagType, color).1.Fail?
    ensures FlagOp(st, folder, id, flagType, color).0.calls == st.calls + [SelectCall(folder)]
  {
  }

  /** Flagging adds `\Flagged` and the keywords to the message; clearing
      with "none" afterwards removes every one of them. */
  lemma FlagThenClear(flags: seq<string>, flagType: string, color: string)
    requires FlagKeywords(flagType, color).Ok?
    ensures var kw := FlagKeywords(flagType, color).value;
            var flagged := ApplyStore(flags, AddFlags, kw);
      && FlaggedFlag in flagged
      && (forall k :: k in kw ==> k in flagged)
      && (forall k :: k in kw ==> k !in ApplyStore(flagged, RemoveFlags, NoneFlags))
  {
    var kw := FlagKeywords(flagType, color).value;
    assert kw[0] in kw;
  }

  // ---------------------------------------------------------------------
  // Folders.

  /** A created folder is listed under its full path and empty. */
  lemma CreateFolderListed(st: ServerState, name: string, parent: string)
    ensures var path := FolderPath(name, parent);
            var (s, r) := CreateFolderOp(st, name, parent);
      && (r.Pass? <==> CreateCmd !in st.failures && path !in st.folders)
      && (r.Pass? ==> path in s.mailboxes && s.folders == st.folders[path := []])
      && (r.Fail? ==> s.folders == st.folders && s.mailboxes == st.mailboxes)
  {
  }

  /** SEARCH with no criteria matches every message. */
  lemma {:induction false} MatchAll(ms: seq<Stored>)
    ensures |MatchingUids(ms, BuildCriteria(NoFilters, 0, ""))| == |ms|
    decreases |ms|
  {
    if ms != [] {
      MatchAll(ms[1..]);
      assert Matches(ms[0], BuildCriteria(NoFilters, 0, ""));
    }
  }

  /** A folder holding messages is not deleted unless forced: the result
      reports it and no DELETE is issued. */
  lemma DeleteFolderGuard(st: ServerState, name: string)
    requires SelectCmd !in st.failures && SearchCmd !in st.failures && name in st.folders
    requires st.folders[name] != []
    ensures var (s, r) := DeleteFolderOp(st, name, false);
      && r == FolderDeletion(false, |st.folders[name]|,
                Some("folder " + name + " is not empty (contains " + FormatNat(|st.folders[name]|) + " emails)"))
      && s.calls == st.calls + [SelectCall(name), SearchCall(BuildCriteria(NoFilters, 0, ""))]
      && s.folders == st.folders
  {
    SelectOk(st, name);
    MatchAll(st.folders[name]);
  }

  /** A deletion that reports no error removed the folder, counted its
      messages, and calls it empty exactly when there were none. */
  lemma DeleteFolderDone(st: ServerState, name: string, force: bool)
    ensures var (s, r) := DeleteFolderOp(st, name, force);
      r.err.None? ==> && name in st.folders && name !in s.folders
                      && r.count == |st.folders[name]|
                      && (r.wasEmpty <==> st.folders[name] == [])
                      && (!force ==> r.wasEmpty)
  {
    var (s1, counted) := CountOp(st, name, NoFilters, 0);
    if counted.Ok? {
      SelectOk(st, name);
      MatchAll(st.folders[name]);
    }
  }

  /** A folder that cannot be counted is reported with count 0 and left
      alone. */
  lemma DeleteFolderUnreachable(st: ServerState, name: string, force: bool)
    requires SelectCmd in st.failures || name !in st.folders
    ensures var (s, r) := DeleteFolderOp(st, name, force);
      !r.wasEmpty && r.count == 0 && r.err.Some? && s.folders == st.folders
  {
  }

  // ---------------------------------------------------------------------
  // Drafts.

  lemma NamesAppend(a: seq<Header>, b: seq<Header>)
    ensures Names(a + b) == Names(a) + Names(b)
  {
  }

  /** The names of a draft's headers, in order. */
  lemma DraftNames(from: string, to: seq<string>, subject: string, opts: DraftOptions,
                   orig: Option<Email>, dateText: string, messageId: string)
    ensures Names(DraftHeaders(from, to, subject, opts, orig, dateText, messageId))
      == ["From", "To"]
         + (if |opts.cc| > 0 then ["Cc"] else [])
         + (if |opts.bcc| > 0 then ["Bcc"] else [])
         + (if orig.Some? && orig.value.messageId != "" then ["In-Reply-To", "References"] else [])
         + ["Subject", "Date", "Message-ID", "Content-Type"]
  {
    var cc := if |opts.cc| > 0 then [Header("Cc", Join(opts.cc, ", "))] else [];
    var bcc := if |opts.bcc| > 0 then [Header("Bcc", Join(opts.bcc, ", "))] else [];
    var rh := ReplyHeaders(orig);
    var tail := [Header("Subject", DraftSubject(subject, orig)), Header("Date", dateText),
                 Header("Message-ID", messageId), Header("Content-Type", ContentTypeOf(opts.html))];
    var head := [Header("From", from), Header("To", Join(to, ", "))];
    assert DraftHeaders(from, to, subject, opts, orig, dateText, messageId) == head + cc + bcc + rh + tail;
    assert Names(head) == ["From", "To"];
    assert Names(cc) == if |opts.cc| > 0 then ["Cc"] else [];
    assert Names(bcc) == if |opts.bcc| > 0 then ["Bcc"] else [];
    assert Names(rh) == if orig.Some? && orig.value.messageId != "" then ["In-Reply-To", "References"] else [];
    assert Names(tail) == ["Subject", "Date", "Message-ID", "Content-Type"];
    NamesAppend(head, cc);
    NamesAppend(head + cc, bcc);
    NamesAppend(head + cc + bcc, rh);
    NamesAppend(head + cc + bcc + rh, tail);
  }

  lemma HeaderNamePresence(cc: bool, bcc: bool, threaded: bool)
    ensures var ns := ["From", "To"] + (if cc then ["Cc"] else []) + (if bcc then ["Bcc"] else [])
                      + (if threaded then ["In-Reply-To", "References"] else [])
                      + ["Subject", "Date", "Message-ID", "Content-Type"];
      && ("Cc" in ns <==> cc) && ("Bcc" in ns <==> bcc)
      && ("In-Reply-To" in ns <==> threaded) && ("References" in ns <==> threaded)
  {
  }

  /** The draft carries a Cc or Bcc header exactly when it has such
      recipients, threading headers exactly when it answers a message that
      has a Message-ID, and always a subject and a Message-ID. */
  lemma DraftHeaderPresence(from: string, to: seq<string>, subject: string, opts: DraftOptions,
                            orig: Option<Email>, dateText: string, messageId: string)
    ensures var ns := Names(DraftHeaders(from, to, subject, opts, orig, dateText, messageId));
      && ("Cc" in ns <==> |opts.cc| > 0)
      && ("Bcc" in ns <==> |opts.bcc| > 0)
      && ("In-Reply-To" in ns <==> orig.Some? && orig.value.messageId != "")
      && ("References" in ns <==> orig.Some? && orig.value.messageId != "")
  {
    DraftNames(from, to, subject, opts, orig, dateText, messageId);
    HeaderNamePresence(|opts.cc| > 0, |opts.bcc| > 0, orig.Some? && orig.value.messageId != "");
  }

  /** The subject and Message-ID headers a draft is written with. */
  lemma DraftHeaderValues(from: string, to: seq<string>, subject: string, opts: DraftOptions,
                          orig: Option<Email>, dateText: string, messageId: string)
    ensures var hs := DraftHeaders(from, to, subject, opts, orig, dateText, messageId);
      && hs[0] == Header("From", from)
      && hs[|hs| - 4] == Header("Subject", DraftSubject(subject, orig))
      && hs[|hs| - 2] == Header("Message-ID", messageId)
      && hs[|hs| - 1] == Header("Content-Type", ContentTypeOf(opts.html))
  {
  }

  /** A reply draft's subject is marked as a reply once, and its References
      end with the original's Message-ID. */
  lemma DraftReplyThreading(subject: string, orig: Email)
    ensures HasPrefix(ToLower(DraftSubject(subject, Some(orig))), "re:")
    ensures DraftSubject(DraftSubject(subject, Some(orig)), Some(orig.(subject := DraftSubject(subject, Some(orig)))))
         == DraftSubject(subject, Some(orig))
    ensures orig.messageId != "" ==>
      ReplyHeaders(Some(orig))[1].value == ReferencesChain(orig.references, orig.messageId)
  {
    ReplySubjectMarked(orig.subject);
    ReplySubjectIdempotent(orig.subject);
  }

  /** Reading the original of a reply changes no folder. */
  lemma GetEmailKeepsFolders(st: ServerState, folder: string, id: string)
    ensures GetEmailOp(st, folder, id).0.folders == st.folders
    ensures GetEmailOp(st, folder, id).0.mailboxes == st.mailboxes
  {
    var (s1, loc) := Locate(st, folder, id);
    assert s1.folders == st.folders && s1.mailboxes == st.mailboxes;
    if loc.Ok? {
      var (s2, msgs, err) := FetchStep(s1, [loc.value], MessageItems);
      assert s2.folders == st.folders && s2.mailboxes == st.mailboxes;
    }
  }

  /** A saved draft is the new last message of the chosen draft folder,
      flagged `\Draft`, holding the composed text (with the original's
      threading when it answers one), and its ID is that folder's new
      message count. */
  lemma SaveDraftId(st: ServerState, username: string, from: string, to: seq<string>, subject: string,
                    body: string, opts: DraftOptions, now: int, dateText: string, uuid: string)
    ensures var folder := ChooseDraftFolder(st.mailboxes);
            var (s, r) := SaveDraftOp(st, username, from, to, subject, body, opts, now, dateText, uuid);
      r.Ok? ==> && folder in st.folders && folder in s.folders
                && |s.folders[folder]| == |st.folders[folder]| + 1
                && r.value == FormatNat(|s.folders[folder]|)
                && s.folders[folder][|s.folders[folder]| - 1].flags == [DraftFlag]
                && (opts.replyToId == "" ==>
                      s.folders[folder][|s.folders[folder]| - 1].text
                        == DraftText(from, to, subject, body, opts, None, dateText, DraftMessageId(uuid, username)))
                && (opts.replyToId != "" ==>
                      var orig := GetEmailOp(ListOp(st).0, ReplyFolder(opts.folder), opts.replyToId).1;
                      && orig.Ok?
                      && s.folders[folder][|s.folders[folder]| - 1].text
                           == DraftText(from, to, subject, body, opts, Some(orig.value), dateText, DraftMessageId(uuid, username)))
  {
    var (s1, listed) := ListOp(st);
    if listed.Ok? {
      assert listed.value == st.mailboxes && s1.folders == st.folders;
      var folder := ChooseDraftFolder(st.mailboxes);
      var messageId := DraftMessageId(uuid, username);
      if opts.replyToId == "" {
        StoreDraftAppends(s1, folder, DraftText(from, to, subject, body, opts, None, dateText, messageId), now);
      } else {
        GetEmailKeepsFolders(s1, ReplyFolder(opts.folder), opts.replyToId);
        var (s2, orig) := GetEmailOp(s1, ReplyFolder(opts.folder), opts.replyToId);
        if orig.Ok? {
          StoreDraftAppends(s2, folder, DraftText(from, to, subject, body, opts, Some(orig.value), dateText, messageId), now);
        }
      }
    }
  }

  /** A stored draft is the folder's new last message, and its ID is the
      folder's new size. */
  lemma StoreDraftAppends(st: ServerState, folder: string, text: string, now: int)
    ensures var (s, r) := StoreDraftOp(st, folder, text, now);
      r.Ok? ==> && folder in st.folders && folder in s.folders
                && |s.folders[folder]| == |st.folders[folder]| + 1
                && r.value == FormatNat(|s.folders[folder]|)
                && s.folders[folder][|s.folders[folder]| - 1].flags == [DraftFlag]
                && s.folders[folder][|s.folders[folder]| - 1].text == text
  {
    var (s1, a) := AppendStep(st, folder, [DraftFlag], now, text);
    if a.Pass? {
      var m := Stored(0, [DraftFlag], now, None, None, text);
      assert s1.folders[folder] == Appended(st.folders[folder], [m]);
    }
  }

  /** A listing failure is reported wrapped twice and nothing is
      appended. */
  lemma SaveDraftListFailure(st: ServerState, username: string, from: string, to: seq<string>, subject: string,
                             body: string, opts: DraftOptions, now: int, dateText: string, uuid: string)
    requires ListCmd in st.failures
    ensures var (s, r) := SaveDraftOp(st, username, from, to, subject, body, opts, now, dateText, uuid);
      && r == Err("failed to list folders: " + ("failed to list folders: " + st.failures[ListCmd]))
      && s.calls == st.calls + [ListCall]
      && s.folders == st.folders
  {
  }

  // ---------------------------------------------------------------------
  // Reading one message.

  /** In an ascending folder the messages with a given UID are the one at
      its index. */
  lemma {:induction false} PickedSingle(ms: seq<Stored>, k: nat)
    requires Ascending(ms) && k < |ms|
    ensures Picked(ms, [ms[k].uid]) == [ms[k]]
    decreases |ms|
  {
    AscendingTail(ms);
    var uids := [ms[k].uid];
    if k == 0 {
      PickedNone(ms[1..], ms[0].uid);
      assert Picked(ms, uids) == [ms[0]] + Picked(ms[1..], uids);
    } else {
      assert ms[1..][k - 1] == ms[k];
      assert ms[0].uid < ms[k].uid;
      assert ms[0].uid !in uids;
      assert Picked(ms, uids) == [] + Picked(ms[1..], uids);
      PickedSingle(ms[1..], k - 1);
    }
  }

  /** No message is picked when none has the UID. */
  lemma {:induction false} PickedNone(ms: seq<Stored>, uid: nat)
    requires forall m :: m in ms ==> m.uid != uid
    ensures Picked(ms, [uid]) == []
    decreases |ms|
  {
    if ms != [] {
      assert ms[0] in ms;
      assert forall m :: m in ms[1..] ==> m in ms;
      PickedNone(ms[1..], uid);
    }
  }

  /** Reading a message that the folder holds gives its e-mail, built with
      the body; a UID the folder does not hold gives "email not found". */
  lemma GetEmailResult(st: ServerState, folder: string, id: string)
    requires WellFormed(st)
    requires SelectCmd !in st.failures && FetchCmd !in st.failures && folder in st.folders
    requires ScanUint32(id).Ok?
    ensures var uid := ScanUint32(id).value;
            var r := GetEmailOp(st, folder, id).1;
      && (forall m :: m in st.folders[folder] ==> m.uid != uid) ==> r == Err("email not found")
    ensures var uid := ScanUint32(id).value;
            var r := GetEmailOp(st, folder, id).1;
      forall k :: 0 <= k < |st.folders[folder]| && st.folders[folder][k].uid == uid ==>
        var m := st.folders[folder][k];
        (m.envelope.Some? ==> r == Ok(ToEmail(Deliver(m, MessageItems), true).value))
        && (m.envelope.None? ==> r == Err("failed to parse email"))
  {
    var uid := ScanUint32(id).value;
    LocateOk(st, folder, id);
    if forall m :: m in st.folders[folder] ==> m.uid != uid {
      PickedNone(st.folders[folder], uid);
    }
    forall k | 0 <= k < |st.folders[folder]| && st.folders[folder][k].uid == uid
      ensures var m := st.folders[folder][k];
        var r := GetEmailOp(st, folder, id).1;
        (m.envelope.Some? ==> r == Ok(ToEmail(Deliver(m, MessageItems), true).value))
        && (m.envelope.None? ==> r == Err("failed to parse email"))
    {
      PickedSingle(st.folders[folder], k);
    }
  }

  /** An attachment of a message the folder does not hold is "email not
      found", reported after the first fetch. */
  lemma GetAttachmentMissingMessage(st: ServerState, folder: string, id: string, filename: string)
    requires SelectCmd !in st.failures && folder in st.folders && ScanUint32(id).Ok?
    requires forall m :: m in st.folders[folder] ==> m.uid != ScanUint32(id).value
    ensures GetAttachmentOp(st, folder, id, filename).1 == Err("email not found")
    ensures GetAttachmentOp(st, folder, id, filename).0.calls
      == st.calls + [SelectCall(folder), FetchCall([ScanUint32(id).value], [BodyStructureItem])]
  {
    LocateOk(st, folder, id);
    PickedNone(st.folders[folder], ScanUint32(id).value);
  }

  /** The attachment of a stored message is the first part with that name,
      with its full content. */
  lemma GetAttachmentFound(st: ServerState, folder: string, id: string, filename: string, k: nat, j: nat)
    requires WellFormed(st)
    requires SelectCmd !in st.failures && FetchCmd !in st.failures && folder in st.folders
    requires ScanUint32(id).Ok? && k < |st.folders[folder]| && st.folders[folder][k].uid == ScanUint32(id).value
    requires st.folders[folder][k].literal.Some? && st.folders[folder][k].literal.value.Mime?
    requires FirstAttachmentAt(st.folders[folder][k].literal.value.parts, filename, j)
    requires st.folders[folder][k].literal.value.parts[j].readError.None?
    ensures var p := st.folders[folder][k].literal.value.parts[j];
      GetAttachmentOp(st, folder, id, filename).1 == Ok(AttachmentData(filename, p.content, p.contentType, |p.content|))
  {
    LocateOk(st, folder, id);
    PickedSingle(st.folders[folder], k);
    var lit := st.folders[folder][k].literal.value;
    FindAttachmentFirst(lit.parts, lit.failure, filename, j);
  }
}
