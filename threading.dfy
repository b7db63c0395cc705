/** The reply conventions shared by reply drafts and sent replies: the
    "Re: " subject prefix and the References chain. */
module Threading {
  import opened Text

  /** The subject of a reply: the original subject, prefixed with "Re: "
      unless it already starts with "re:" in any letter case. */
  function ReplySubject(subject: string): (r: string)
    ensures HasPrefix(ToLower(subject), "re:") ==> r == subject
    ensures !HasPrefix(ToLower(subject), "re:") ==> r == "Re: " + subject
  {
    if HasPrefix(ToLower(subject), "re:") then subject else "Re: " + subject
  }

  /** Every reply subject starts with "re:" in some letter case. */
  lemma ReplySubjectMarked(subject: string)
    ensures HasPrefix(ToLower(ReplySubject(subject)), "re:")
  {
    var r := ReplySubject(subject);
    if !HasPrefix(ToLower(subject), "re:") {
      ToLowerPrefix(r, 3);
      assert r[..3] == "Re:";
      assert ToLower("Re:") == "re:";
    }
  }

  /** The reply subject ends with the original subject, with at most the
      four characters of "Re: " in front. */
  lemma ReplySubjectKeepsSubject(subject: string)
    ensures var r := ReplySubject(subject);
      |subject| <= |r| <= |subject| + 4 && r[|r| - |subject|..] == subject
  {
  }

  /** Replying to a reply adds no second prefix: the rule is idempotent. */
  lemma ReplySubjectIdempotent(subject: string)
    ensures ReplySubject(ReplySubject(subject)) == ReplySubject(subject)
  {
    ReplySubjectMarked(subject);
  }

  /** The References value of a reply: the original's references followed
      by its Message-ID, separated by spaces. */
  function ReferencesChain(references: seq<string>, messageId: string): (r: string)
    ensures references == [] ==> r == messageId
    ensures references != [] ==> r == Join(references, " ") + " " + messageId
  {
    assert references != [] ==>
      Join(references + [messageId], " ") == Join(references, " ") + " " + messageId by {
      if references != [] {
        JoinSnoc(references, messageId, " ");
      }
    }
    assert references == [] ==> references + [messageId] == [messageId];
    Join(references + [messageId], " ")
  }
}
