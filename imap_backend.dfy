/** The IMAP server the mailbox adapter talks to, as an abstract backend.

    The server holds named folders, each an ascending list of stored
    messages (UID, flags, internal date, envelope, body literal, searchable
    text), the currently selected folder, a log of every command received
    (the call counters and captured arguments of a test double are
    projections of it), and per-command injected failures: while a failure
    is set for a command, every call of that command fails with that text
    and changes nothing but the log.

    Each command is a step function on `ServerState`; the `Server` class
    keeps the same state in fields and its methods are proved to perform
    those steps. */
module ImapBackend {
  import opened Results
  import opened Text
  import opened Messages

  const DeletedFlag: string := "\\Deleted"
  const DraftFlag: string := "\\Draft"
  const FlaggedFlag: string := "\\Flagged"

  datatype Command =
    | ListCmd | SelectCmd | SearchCmd | FetchCmd | StoreCmd | MoveCmd
    | CopyCmd | ExpungeCmd | AppendCmd | CreateCmd | DeleteCmd | LogoutCmd

  /** A SEARCH request: internal date on or after `since` and before
      `before`, none of `withoutFlags`, and every string of `text` in the
      message text. */
  datatype Criteria = Criteria(
    since: Option<int>,
    before: Option<int>,
    withoutFlags: seq<string>,
    text: seq<string>)

  datatype FetchItem = EnvelopeItem | FlagsItem | UidItem | BodyStructureItem | BodySectionItem

  datatype StoreMode = AddFlags | RemoveFlags

  /** One command as the server received it, with its arguments. */
  datatype Call =
    | ListCall
    | SelectCall(name: string)
    | SearchCall(criteria: Criteria)
    | FetchCall(uids: seq<nat>, items: seq<FetchItem>)
    | StoreCall(uids: seq<nat>, mode: StoreMode, flags: seq<string>)
    | MoveCall(uids: seq<nat>, dest: string)
    | CopyCall(uids: seq<nat>, dest: string)
    | ExpungeCall
    | AppendCall(mailbox: string, flags: seq<string>, date: int, text: string)
    | CreateCall(name: string)
    | DeleteCall(name: string)
    | LogoutCall

  function CommandOf(c: Call): Command
  {
    match c
    case ListCall => ListCmd
    case SelectCall(_) => SelectCmd
    case SearchCall(_) => SearchCmd
    case FetchCall(_, _) => FetchCmd
    case StoreCall(_, _, _) => StoreCmd
    case MoveCall(_, _) => MoveCmd
    case CopyCall(_, _) => CopyCmd
    case ExpungeCall => ExpungeCmd
    case AppendCall(_, _, _, _) => AppendCmd
    case CreateCall(_) => CreateCmd
    case DeleteCall(_) => DeleteCmd
    case LogoutCall => LogoutCmd
  }

  /** How many calls of a command a log holds (a test double's counter). */
  function CallCount(calls: seq<Call>, cmd: Command): (n: nat)
    ensures n <= |calls|
  {
    if calls == [] then 0
    else CallCount(calls[..|calls| - 1], cmd) + (if CommandOf(calls[|calls| - 1]) == cmd then 1 else 0)
  }

  lemma CallCountAppend(calls: seq<Call>, more: seq<Call>, cmd: Command)
    ensures CallCount(calls + more, cmd) == CallCount(calls, cmd) + CallCount(more, cmd)
    decreases |more|
  {
    if more != [] {
      assert (calls + more)[..|calls + more| - 1] == calls + more[..|more| - 1];
      CallCountAppend(calls, more[..|more| - 1], cmd);
    } else {
      assert calls + more == calls;
    }
  }

  datatype Stored = Stored(
    uid: nat,
    flags: seq<string>,
    date: int,
    envelope: Option<Envelope>,
    literal: Option<Literal>,
    text: string)

  datatype ServerState = ServerState(
    mailboxes: seq<string>,
    folders: map<string, seq<Stored>>,
    selected: Option<string>,
    failures: map<Command, string>,
    calls: seq<Call>)

  // ---------------------------------------------------------------------
  // Well-formedness, preserved by every command.

  predicate NoDup(xs: seq<string>)
  {
    forall i, j :: 0 <= i < j < |xs| ==> xs[i] != xs[j]
  }

  predicate Ascending(ms: seq<Stored>)
  {
    forall i, j :: 0 <= i < j < |ms| ==> ms[i].uid < ms[j].uid
  }

  /** The folder list names each folder once, in listing order; every
      folder's messages are in ascending UID order; a selected folder
      exists. */
  predicate WellFormed(st: ServerState)
  {
    && NoDup(st.mailboxes)
    && (forall n :: n in st.folders ==> n in st.mailboxes)
    && (forall n :: n in st.mailboxes ==> n in st.folders)
    && (forall n :: n in st.folders ==> Ascending(st.folders[n]))
    && (st.selected.Some? ==> st.selected.value in st.folders)
  }

  // ---------------------------------------------------------------------
  // Message-list operations.

  predicate Matches(m: Stored, c: Criteria)
  {
    && (c.since.None? || m.date >= c.since.value)
    && (c.before.None? || m.date < c.before.value)
    && (forall f :: f in c.withoutFlags ==> f !in m.flags)
    && (forall t :: t in c.text ==> Contains(m.text, t))
  }

  /** The UIDs of the matching messages, in folder order. */
  function MatchingUids(ms: seq<Stored>, c: Criteria): (r: seq<nat>)
    ensures |r| <= |ms|
    decreases |ms|
  {
    if ms == [] then []
    else (if Matches(ms[0], c) then [ms[0].uid] else []) + MatchingUids(ms[1..], c)
  }

  /** The messages whose UID is among `uids`, in folder order. */
  function Picked(ms: seq<Stored>, uids: seq<nat>): (r: seq<Stored>)
    ensures |r| <= |ms|
    ensures forall m :: m in r ==> m in ms && m.uid in uids
    decreases |ms|
  {
    if ms == [] then []
    else (if ms[0].uid in uids then [ms[0]] else []) + Picked(ms[1..], uids)
  }

  /** The messages whose UID is not among `uids`. */
  function Unpicked(ms: seq<Stored>, uids: seq<nat>): (r: seq<Stored>)
    ensures |r| <= |ms|
    ensures forall m :: m in r ==> m in ms && m.uid !in uids
    decreases |ms|
  {
    if ms == [] then []
    else (if ms[0].uid !in uids then [ms[0]] else []) + Unpicked(ms[1..], uids)
  }

  /** The messages not flagged `\Deleted`. */
  function Undeleted(ms: seq<Stored>): (r: seq<Stored>)
    ensures |r| <= |ms|
    ensures forall m :: m in r ==> m in ms && DeletedFlag !in m.flags
    decreases |ms|
  {
    if ms == [] then []
    else (if DeletedFlag !in ms[0].flags then [ms[0]] else []) + Undeleted(ms[1..])
  }

  /** A message as a fetch of `items` delivers it. */
  function Deliver(m: Stored, items: seq<FetchItem>): FetchedMessage
  {
    FetchedMessage(
      m.uid,
      if EnvelopeItem in items then m.envelope else None,
      if FlagsItem in items then m.flags else [],
      if BodySectionItem in items then m.literal else None)
  }

  function DeliverAll(ms: seq<Stored>, items: seq<FetchItem>): (r: seq<FetchedMessage>)
    ensures |r| == |ms|
    ensures forall i :: 0 <= i < |ms| ==> r[i] == Deliver(ms[i], items)
  {
    seq(|ms|, i requires 0 <= i < |ms| => Deliver(ms[i], items))
  }

  /** `flags` followed by each of `add` not already present. */
  function AddAll(flags: seq<string>, add: seq<string>): (r: seq<string>)
    ensures forall f :: f in r <==> f in flags || f in add
    decreases |add|
  {
    if add == [] then flags
    else AddAll(if add[0] in flags then flags else flags + [add[0]], add[1..])
  }

  /** `flags` without any of `remove`. */
  function RemoveAll(flags: seq<string>, remove: seq<string>): (r: seq<string>)
    ensures forall f :: f in r <==> f in flags && f !in remove
    decreases |flags|
  {
    if flags == [] then []
    else (if flags[0] in remove then [] else [flags[0]]) + RemoveAll(flags[1..], remove)
  }

  function ApplyStore(flags: seq<string>, mode: StoreMode, change: seq<string>): seq<string>
  {
    if mode == AddFlags then AddAll(flags, change) else RemoveAll(flags, change)
  }

  /** The flag update applied to the messages among `uids`. */
  function Restored(ms: seq<Stored>, uids: seq<nat>, mode: StoreMode, change: seq<string>): (r: seq<Stored>)
    ensures |r| == |ms|
    ensures forall i :: 0 <= i < |ms| ==> r[i].uid == ms[i].uid
    ensures forall i :: 0 <= i < |ms| ==>
      r[i] == (if ms[i].uid in uids then ms[i].(flags := ApplyStore(ms[i].flags, mode, change)) else ms[i])
  {
    seq(|ms|, i requires 0 <= i < |ms| =>
      if ms[i].uid in uids then ms[i].(flags := ApplyStore(ms[i].flags, mode, change)) else ms[i])
  }

  /** The UID the next message added to a folder receives. */
  function NextUid(ms: seq<Stored>): (n: nat)
    ensures n >= 1
    ensures Ascending(ms) ==> forall m :: m in ms ==> m.uid < n
  {
    if ms == [] then 1 else ms[|ms| - 1].uid + 1
  }

  /** Copies of `ms` numbered from `next` upwards. */
  function Renumbered(ms: seq<Stored>, next: nat): (r: seq<Stored>)
    ensures |r| == |ms|
    ensures forall i :: 0 <= i < |ms| ==> r[i] == ms[i].(uid := next + i)
  {
    seq(|ms|, i requires 0 <= i < |ms| => ms[i].(uid := next + i))
  }

  /** `copies` added at the end of `folder`, with fresh UIDs. */
  function Appended(folder: seq<Stored>, copies: seq<Stored>): seq<Stored>
  {
    folder + Renumbered(copies, NextUid(folder))
  }

  // ---------------------------------------------------------------------
  // The commands.

  function Logged(st: ServerState, c: Call): ServerState
  {
    st.(calls := st.calls + [c])
  }

  const NoSelection := "no mailbox selected"

  function NoSuchMailbox(name: string): string
  {
    "no such mailbox: " + name
  }

  predicate HasSelection(st: ServerState)
  {
    st.selected.Some? && st.selected.value in st.folders
  }

  /** LIST: the folder names in listing order. */
  function ListStep(st: ServerState): (ServerState, Result<seq<string>>)
  {
    var s := Logged(st, ListCall);
    if ListCmd in st.failures then (s, Err(st.failures[ListCmd]))
    else (s, Ok(st.mailboxes))
  }

  /** SELECT: on success the folder is selected and its message count
      returned; a failed SELECT leaves no folder selected. */
  function SelectStep(st: ServerState, name: string): (ServerState, Result<nat>)
  {
    var s := Logged(st, SelectCall(name));
    if SelectCmd in st.failures then (s.(selected := None), Err(st.failures[SelectCmd]))
    else if name !in st.folders then (s.(selected := None), Err(NoSuchMailbox(name)))
    else (s.(selected := Some(name)), Ok(|st.folders[name]|))
  }

  /** UID SEARCH in the selected folder. */
  function SearchStep(st: ServerState, c: Criteria): (ServerState, Result<seq<nat>>)
  {
    var s := Logged(st, SearchCall(c));
    if SearchCmd in st.failures then (s, Err(st.failures[SearchCmd]))
    else if !HasSelection(st) then (s, Err(NoSelection))
    else (s, Ok(MatchingUids(st.folders[st.selected.value], c)))
  }

  /** UID FETCH in the selected folder: the requested messages are
      delivered in folder order, and an injected failure is reported after
      them, as a server that fails mid-stream would. */
  function FetchStep(st: ServerState, uids: seq<nat>, items: seq<FetchItem>): (ServerState, seq<FetchedMessage>, Option<string>)
  {
    var s := Logged(st, FetchCall(uids, items));
    if !HasSelection(st) then (s, [], Some(NoSelection))
    else
      var delivered := DeliverAll(Picked(st.folders[st.selected.value], uids), items);
      if FetchCmd in st.failures then (s, delivered, Some(st.failures[FetchCmd]))
      else (s, delivered, None)
  }

  /** UID STORE: adds or removes flags on the messages among `uids`. */
  function StoreStep(st: ServerState, uids: seq<nat>, mode: StoreMode, change: seq<string>): (ServerState, Outcome)
  {
    var s := Logged(st, StoreCall(uids, mode, change));
    if StoreCmd in st.failures then (s, Fail(st.failures[StoreCmd]))
    else if !HasSelection(st) then (s, Fail(NoSelection))
    else
      var sel := st.selected.value;
      (s.(folders := st.folders[sel := Restored(st.folders[sel], uids, mode, change)]), Pass)
  }

  /** UID COPY: the messages among `uids` are copied to `dest`. */
  function CopyStep(st: ServerState, uids: seq<nat>, dest: string): (ServerState, Outcome)
  {
    var s := Logged(st, CopyCall(uids, dest));
    if CopyCmd in st.failures then (s, Fail(st.failures[CopyCmd]))
    else if !HasSelection(st) then (s, Fail(NoSelection))
    else if dest !in st.folders then (s, Fail(NoSuchMailbox(dest)))
    else
      var moving := Picked(st.folders[st.selected.value], uids);
      (s.(folders := st.folders[dest := Appended(st.folders[dest], moving)]), Pass)
  }

  /** UID MOVE: the messages among `uids` leave the selected folder and are
      added to `dest`. */
  function MoveStep(st: ServerState, uids: seq<nat>, dest: string): (ServerState, Outcome)
  {
    var s := Logged(st, MoveCall(uids, dest));
    if MoveCmd in st.failures then (s, Fail(st.failures[MoveCmd]))
    else if !HasSelection(st) then (s, Fail(NoSelection))
    else if dest !in st.folders then (s, Fail(NoSuchMailbox(dest)))
    else
      var sel := st.selected.value;
      var moving := Picked(st.folders[sel], uids);
      var left := st.folders[sel := Unpicked(st.folders[sel], uids)];
      (s.(folders := left[dest := Appended(left[dest], moving)]), Pass)
  }

  /** EXPUNGE: every message of the selected folder flagged `\Deleted` is
      removed. */
  function ExpungeStep(st: ServerState): (ServerState, Outcome)
  {
    var s := Logged(st, ExpungeCall);
    if ExpungeCmd in st.failures then (s, Fail(st.failures[ExpungeCmd]))
    else if !HasSelection(st) then (s, Fail(NoSelection))
    else
      var sel := st.selected.value;
      (s.(folders := st.folders[sel := Undeleted(st.folders[sel])]), Pass)
  }

  /** APPEND: a new message with the given flags, date and text. */
  function AppendStep(st: ServerState, mailbox: string, flags: seq<string>, date: int, text: string): (ServerState, Outcome)
  {
    var s := Logged(st, AppendCall(mailbox, flags, date, text));
    if AppendCmd in st.failures then (s, Fail(st.failures[AppendCmd]))
    else if mailbox !in st.folders then (s, Fail(NoSuchMailbox(mailbox)))
    else
      var m := Stored(0, flags, date, None, None, text);
      (s.(folders := st.folders[mailbox := Appended(st.folders[mailbox], [m])]), Pass)
  }

  /** CREATE: a new, empty folder listed last. */
  function CreateStep(st: ServerState, name: string): (ServerState, Outcome)
  {
    var s := Logged(st, CreateCall(name));
    if CreateCmd in st.failures then (s, Fail(st.failures[CreateCmd]))
    else if name in st.folders then (s, Fail("mailbox already exists: " + name))
    else (s.(mailboxes := st.mailboxes + [name], folders := st.folders[name := []]), Pass)
  }

  function Without(xs: seq<string>, x: string): (r: seq<string>)
    ensures forall y :: y in r <==> y in xs && y != x
    decreases |xs|
  {
    if xs == [] then [] else (if xs[0] == x then [] else [xs[0]]) + Without(xs[1..], x)
  }

  /** DELETE: the folder and its messages are gone; it is deselected if it
      was selected. */
  function DeleteStep(st: ServerState, name: string): (ServerState, Outcome)
  {
    var s := Logged(st, DeleteCall(name));
    if DeleteCmd in st.failures then (s, Fail(st.failures[DeleteCmd]))
    else if name !in st.folders then (s, Fail(NoSuchMailbox(name)))
    else
      (s.(mailboxes := Without(st.mailboxes, name),
          folders := st.folders - {name},
          selected := if st.selected == Some(name) then None else st.selected), Pass)
  }

  /** LOGOUT. */
  function LogoutStep(st: ServerState): (ServerState, Outcome)
  {
    var s := Logged(st, LogoutCall);
    if LogoutCmd in st.failures then (s, Fail(st.failures[LogoutCmd])) else (s, Pass)
  }

  // ---------------------------------------------------------------------
  // Every command keeps the server well formed.

  lemma AscendingCons(x: Stored, rest: seq<Stored>)
    requires Ascending(rest)
    requires forall m :: m in rest ==> x.uid < m.uid
    ensures Ascending([x] + rest)
  {
    var r := [x] + rest;
    forall i, j | 0 <= i < j < |r| ensures r[i].uid < r[j].uid {
      if i == 0 {
        assert r[j] == rest[j - 1] && r[j] in rest;
      } else {
        assert r[i] == rest[i - 1] && r[j] == rest[j - 1];
      }
    }
  }

  lemma AscendingTail(ms: seq<Stored>)
    requires Ascending(ms) && ms != []
    ensures Ascending(ms[1..])
    ensures forall m :: m in ms[1..] ==> ms[0].uid < m.uid
  {
    forall m | m in ms[1..] ensures ms[0].uid < m.uid {
      var k :| 0 <= k < |ms[1..]| && ms[1..][k] == m;
      assert ms[k + 1] == m;
    }
  }

  lemma {:induction false} PickedAscending(ms: seq<Stored>, uids: seq<nat>)
    requires Ascending(ms)
    ensures Ascending(Picked(ms, uids))
    decreases |ms|
  {
    if ms != [] {
      AscendingTail(ms);
      PickedAscending(ms[1..], uids);
      if ms[0].uid in uids {
        AscendingCons(ms[0], Picked(ms[1..], uids));
      }
    }
  }

  lemma {:induction false} UnpickedAscending(ms: seq<Stored>, uids: seq<nat>)
    requires Ascending(ms)
    ensures Ascending(Unpicked(ms, uids))
    decreases |ms|
  {
    if ms != [] {
      AscendingTail(ms);
      UnpickedAscending(ms[1..], uids);
      if ms[0].uid !in uids {
        AscendingCons(ms[0], Unpicked(ms[1..], uids));
      }
    }
  }

  lemma {:induction false} UndeletedAscending(ms: seq<Stored>)
    requires Ascending(ms)
    ensures Ascending(Undeleted(ms))
    decreases |ms|
  {
    if ms != [] {
      AscendingTail(ms);
      UndeletedAscending(ms[1..]);
      if DeletedFlag !in ms[0].flags {
        AscendingCons(ms[0], Undeleted(ms[1..]));
      }
    }
  }

  lemma AppendedAscending(folder: seq<Stored>, copies: seq<Stored>)
    requires Ascending(folder)
    ensures Ascending(Appended(folder, copies))
  {
    var next := NextUid(folder);
    var r := Appended(folder, copies);
    var n := |folder|;
    forall i, j | 0 <= i < j < |r| ensures r[i].uid < r[j].uid {
      if j < n {
        assert r[i] == folder[i] && r[j] == folder[j];
      } else if i < n {
        assert r[i] == folder[i] && folder[i] in folder;
        assert r[j].uid == next + (j - n);
      } else {
        assert r[i].uid == next + (i - n) && r[j].uid == next + (j - n);
      }
    }
  }

  lemma RestoredAscending(ms: seq<Stored>, uids: seq<nat>, mode: StoreMode, change: seq<string>)
    requires Ascending(ms)
    ensures Ascending(Restored(ms, uids, mode, change))
  {
  }

  lemma {:induction false} WithoutNoDup(xs: seq<string>, x: string)
    requires NoDup(xs)
    ensures NoDup(Without(xs, x))
    decreases |xs|
  {
    if xs != [] {
      var rest := xs[1..];
      assert NoDup(rest) by {
        forall i, j | 0 <= i < j < |rest| ensures rest[i] != rest[j] {
          assert rest[i] == xs[i + 1] && rest[j] == xs[j + 1];
        }
      }
      WithoutNoDup(rest, x);
      if xs[0] != x {
        var r := [xs[0]] + Without(rest, x);
        assert xs[0] !in rest by {
          forall k | 0 <= k < |rest| ensures rest[k] != xs[0] {
            assert rest[k] == xs[k + 1];
          }
        }
        forall i, j | 0 <= i < j < |r| ensures r[i] != r[j] {
          if i == 0 {
            assert r[j] in Without(rest, x);
          } else {
            assert r[i] == Without(rest, x)[i - 1] && r[j] == Without(rest, x)[j - 1];
          }
        }
      }
    }
  }

  /** Replacing one folder's messages by an ascending list keeps the server
      well formed. */
  lemma UpdateFolderWellFormed(st: ServerState, name: string, ms: seq<Stored>, calls: seq<Call>)
    requires WellFormed(st) && name in st.folders && Ascending(ms)
    ensures WellFormed(st.(folders := st.folders[name := ms], calls := calls))
  {
  }

  lemma SelectWellFormed(st: ServerState, name: string)
    requires WellFormed(st)
    ensures WellFormed(SelectStep(st, name).0)
  {
  }

  lemma StoreWellFormed(st: ServerState, uids: seq<nat>, mode: StoreMode, change: seq<string>)
    requires WellFormed(st)
    ensures WellFormed(StoreStep(st, uids, mode, change).0)
  {
    if HasSelection(st) && StoreCmd !in st.failures {
      var sel := st.selected.value;
      RestoredAscending(st.folders[sel], uids, mode, change);
      UpdateFolderWellFormed(st, sel, Restored(st.folders[sel], uids, mode, change),
                             st.calls + [StoreCall(uids, mode, change)]);
    }
  }

  lemma CopyWellFormed(st: ServerState, uids: seq<nat>, dest: string)
    requires WellFormed(st)
    ensures WellFormed(CopyStep(st, uids, dest).0)
  {
    if HasSelection(st) && CopyCmd !in st.failures && dest in st.folders {
      var moving := Picked(st.folders[st.selected.value], uids);
      AppendedAscending(st.folders[dest], moving);
      UpdateFolderWellFormed(st, dest, Appended(st.folders[dest], moving),
                             st.calls + [CopyCall(uids, dest)]);
    }
  }

  lemma MoveWellFormed(st: ServerState, uids: seq<nat>, dest: string)
    requires WellFormed(st)
    ensures WellFormed(MoveStep(st, uids, dest).0)
  {
    if HasSelection(st) && MoveCmd !in st.failures && dest in st.folders {
      var sel := st.selected.value;
      var moving := Picked(st.folders[sel], uids);
      UnpickedAscending(st.folders[sel], uids);
      var mid := st.(folders := st.folders[sel := Unpicked(st.folders[sel], uids)],
                     calls := st.calls + [MoveCall(uids, dest)]);
      UpdateFolderWellFormed(st, sel, Unpicked(st.folders[sel], uids), mid.calls);
      AppendedAscending(mid.folders[dest], moving);
      UpdateFolderWellFormed(mid, dest, Appended(mid.folders[dest], moving), mid.calls);
    }
  }

  lemma ExpungeWellFormed(st: ServerState)
    requires WellFormed(st)
    ensures WellFormed(ExpungeStep(st).0)
  {
    if HasSelection(st) && ExpungeCmd !in st.failures {
      var sel := st.selected.value;
      UndeletedAscending(st.folders[sel]);
      UpdateFolderWellFormed(st, sel, Undeleted(st.folders[sel]), st.calls + [ExpungeCall]);
    }
  }

  lemma AppendWellFormed(st: ServerState, mailbox: string, flags: seq<string>, date: int, text: string)
    requires WellFormed(st)
    ensures WellFormed(AppendStep(st, mailbox, flags, date, text).0)
  {
    if AppendCmd !in st.failures && mailbox in st.folders {
      var m := Stored(0, flags, date, None, None, text);
      AppendedAscending(st.folders[mailbox], [m]);
      UpdateFolderWellFormed(st, mailbox, Appended(st.folders[mailbox], [m]),
                             st.calls + [AppendCall(mailbox, flags, date, text)]);
    }
  }

  lemma CreateWellFormed(st: ServerState, name: string)
    requires WellFormed(st)
    ensures WellFormed(CreateStep(st, name).0)
  {
    if CreateCmd !in st.failures && name !in st.folders {
      var s := CreateStep(st, name).0;
      assert name !in st.mailboxes;
      forall i, j | 0 <= i < j < |s.mailboxes| ensures s.mailboxes[i] != s.mailboxes[j] {
        if j == |st.mailboxes| {
          assert s.mailboxes[i] == st.mailboxes[i] && st.mailboxes[i] in st.mailboxes;
        }
      }
    }
  }

  lemma DeleteWellFormed(st: ServerState, name: string)
    requires WellFormed(st)
    ensures WellFormed(DeleteStep(st, name).0)
  {
    if DeleteCmd !in st.failures && name in st.folders {
      WithoutNoDup(st.mailboxes, name);
    }
  }

  // ---------------------------------------------------------------------
  // The backend object.

  /** The server a connection talks to, its state held in fields. Each
      method performs one command and is proved to take the step the
      matching `...Step` function describes. */
  class Server {
    var mailboxes: seq<string>
    var folders: map<string, seq<Stored>>
    var selected: Option<string>
    var failures: map<Command, string>
    var calls: seq<Call>

    function Snapshot(): ServerState
      reads this
    {
      ServerState(mailboxes, folders, selected, failures, calls)
    }

    ghost predicate Valid()
      reads this
    {
      WellFormed(Snapshot())
    }

    constructor (init: ServerState)
      requires WellFormed(init)
      ensures Snapshot() == init && Valid()
    {
      mailboxes := init.mailboxes;
      folders := init.folders;
      selected := init.selected;
      failures := init.failures;
      calls := init.calls;
    }

    /** From now on every call of `cmd` fails with `text`. */
    method InjectFailure(cmd: Command, text: string)
      requires Valid()
      modifies this
      ensures Snapshot() == old(Snapshot()).(failures := old(failures)[cmd := text])
      ensures Valid()
    {
      failures := failures[cmd := text];
    }

    /** Calls of `cmd` behave normally again. */
    method ClearFailure(cmd: Command)
      requires Valid()
      modifies this
      ensures Snapshot() == old(Snapshot()).(failures := old(failures) - {cmd})
      ensures Valid()
    {
      failures := failures - {cmd};
    }

    method List() returns (r: Result<seq<string>>)
      requires Valid()
      modifies this
      ensures (Snapshot(), r) == ListStep(old(Snapshot()))
      ensures Valid()
    {
      calls := calls + [ListCall];
      if ListCmd in failures {
        return Err(failures[ListCmd]);
      }
      r := Ok(mailboxes);
    }

    method Select(name: string) returns (r: Result<nat>)
      requires Valid()
      modifies this
      ensures (Snapshot(), r) == SelectStep(old(Snapshot()), name)
      ensures Valid()
    {
      SelectWellFormed(Snapshot(), name);
      calls := calls + [SelectCall(name)];
      if SelectCmd in failures {
        selected := None;
        return Err(failures[SelectCmd]);
      }
      if name !in folders {
        selected := None;
        return Err(NoSuchMailbox(name));
      }
      selected := Some(name);
      r := Ok(|folders[name]|);
    }

    method Search(c: Criteria) returns (r: Result<seq<nat>>)
      requires Valid()
      modifies this
      ensures (Snapshot(), r) == SearchStep(old(Snapshot()), c)
      ensures Valid()
    {
      calls := calls + [SearchCall(c)];
      if SearchCmd in failures {
        return Err(failures[SearchCmd]);
      }
      if selected.None? || selected.value !in folders {
        return Err(NoSelection);
      }
      r := Ok(MatchingUids(folders[selected.value], c));
    }

    method Fetch(uids: seq<nat>, items: seq<FetchItem>) returns (msgs: seq<FetchedMessage>, err: Option<string>)
      requires Valid()
      modifies this
      ensures (Snapshot(), msgs, err) == FetchStep(old(Snapshot()), uids, items)
      ensures Valid()
    {
      calls := calls + [FetchCall(uids, items)];
      if selected.None? || selected.value !in folders {
        return [], Some(NoSelection);
      }
      msgs := DeliverAll(Picked(folders[selected.value], uids), items);
      err := if FetchCmd in failures then Some(failures[FetchCmd]) else None;
    }

    method Store(uids: seq<nat>, mode: StoreMode, change: seq<string>) returns (r: Outcome)
      requires Valid()
      modifies this
      ensures (Snapshot(), r) == StoreStep(old(Snapshot()), uids, mode, change)
      ensures Valid()
    {
      StoreWellFormed(Snapshot(), uids, mode, change);
      calls := calls + [StoreCall(uids, mode, change)];
      if StoreCmd in failures {
        return Fail(failures[StoreCmd]);
      }
      if selected.None? || selected.value !in folders {
        return Fail(NoSelection);
      }
      var sel := selected.value;
      folders := folders[sel := Restored(folders[sel], uids, mode, change)];
      r := Pass;
    }

    method Copy(uids: seq<nat>, dest: string) returns (r: Outcome)
      requires Valid()
      modifies this
      ensures (Snapshot(), r) == CopyStep(old(Snapshot()), uids, dest)
      ensures Valid()
    {
      CopyWellFormed(Snapshot(), uids, dest);
      calls := calls + [CopyCall(uids, dest)];
      if CopyCmd in failures {
        return Fail(failures[CopyCmd]);
      }
      if selected.None? || selected.value !in folders {
        return Fail(NoSelection);
      }
      if dest !in folders {
        return Fail(NoSuchMailbox(dest));
      }
      var moving := Picked(folders[selected.value], uids);
      folders := folders[dest := Appended(folders[dest], moving)];
      r := Pass;
    }

    method Move(uids: seq<nat>, dest: string) returns (r: Outcome)
      requires Valid()
      modifies this
      ensures (Snapshot(), r) == MoveStep(old(Snapshot()), uids, dest)
      ensures Valid()
    {
      MoveWellFormed(Snapshot(), uids, dest);
      calls := calls + [MoveCall(uids, dest)];
      if MoveCmd in failures {
        return Fail(failures[MoveCmd]);
      }
      if selected.None? || selected.value !in folders {
        return Fail(NoSelection);
      }
      if dest !in folders {
        return Fail(NoSuchMailbox(dest));
      }
      var sel := selected.value;
      var moving := Picked(folders[sel], uids);
      folders := folders[sel := Unpicked(folders[sel], uids)];
      folders := folders[dest := Appended(folders[dest], moving)];
      r := Pass;
    }

    method Expunge() returns (r: Outcome)
      requires Valid()
      modifies this
      ensures (Snapshot(), r) == ExpungeStep(old(Snapshot()))
      ensures Valid()
    {
      ExpungeWellFormed(Snapshot());
      calls := calls + [ExpungeCall];
      if ExpungeCmd in failures {
        return Fail(failures[ExpungeCmd]);
      }
      if selected.None? || selected.value !in folders {
        return Fail(NoSelection);
      }
      var sel := selected.value;
      folders := folders[sel := Undeleted(folders[sel])];
      r := Pass;
    }

    method Append(mailbox: string, flags: seq<string>, date: int, text: string) returns (r: Outcome)
      requires Valid()
      modifies this
      ensures (Snapshot(), r) == AppendStep(old(Snapshot()), mailbox, flags, date, text)
      ensures Valid()
    {
      AppendWellFormed(Snapshot(), mailbox, flags, date, text);
      calls := calls + [AppendCall(mailbox, flags, date, text)];
      if AppendCmd in failures {
        return Fail(failures[AppendCmd]);
      }
      if mailbox !in folders {
        return Fail(NoSuchMailbox(mailbox));
      }
      var m := Stored(0, flags, date, None, None, text);
      folders := folders[mailbox := Appended(folders[mailbox], [m])];
      r := Pass;
    }

    method Create(name: string) returns (r: Outcome)
      requires Valid()
      modifies this
      ensures (Snapshot(), r) == CreateStep(old(Snapshot()), name)
      ensures Valid()
    {
      CreateWellFormed(Snapshot(), name);
      calls := calls + [CreateCall(name)];
      if CreateCmd in failures {
        return Fail(failures[CreateCmd]);
      }
      if name in folders {
        return Fail("mailbox already exists: " + name);
      }
      mailboxes := mailboxes + [name];
      folders := folders[name := []];
      r := Pass;
    }

    method Delete(name: string) returns (r: Outcome)
      requires Valid()
      modifies this
      ensures (Snapshot(), r) == DeleteStep(old(Snapshot()), name)
      ensures Valid()
    {
      DeleteWellFormed(Snapshot(), name);
      calls := calls + [DeleteCall(name)];
      if DeleteCmd in failures {
        return Fail(failures[DeleteCmd]);
      }
      if name !in folders {
        return Fail(NoSuchMailbox(name));
      }
      mailboxes := Without(mailboxes, name);
      folders := folders - {name};
      if selected == Some(name) {
        selected := None;
      }
      r := Pass;
    }

    method Logout() returns (r: Outcome)
      requires Valid()
      modifies this
      ensures (Snapshot(), r) == LogoutStep(old(Snapshot()))
      ensures Valid()
    {
      calls := calls + [LogoutCall];
      if LogoutCmd in failures {
        return Fail(failures[LogoutCmd]);
      }
      r := Pass;
    }
  }
}
