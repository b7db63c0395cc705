/** The outbound side of the adapter: composing a message from the send
    arguments, deriving a reply from a fetched e-mail, and the plain-text
    rendering of an HTML body. The SMTP transport is a `Transport` object
    that captures each message handed to it (sender, envelope recipients,
    header fields and body parts) or refuses it with an injected error. */
module Outbound {
  import opened Results
  import opened Text
  import opened Decimal
  import opened Threading
  import opened Messages

  /** The host name the Message-ID of a sent message names. */
  const SmtpServer := "smtp.mail.me.com"

  const PlainType := "text/plain; charset=utf-8"
  const HtmlType := "text/html; charset=utf-8"
  const AlternativeType := "multipart/alternative"

  /** The optional send arguments: the Cc and Bcc recipients, whether the
      body is HTML, and extra header fields. */
  datatype SendOptions = SendOptions(cc: seq<string>, bcc: seq<string>, html: bool, headers: map<string, string>)

  /** One part of the message body. */
  datatype BodyPart = BodyPart(contentType: string, text: string)

  /** What the transport is handed: the envelope sender and recipients,
      the header fields keyed by their canonical name, and the body parts. */
  datatype Outgoing = Outgoing(from: string, recipients: seq<string>, header: map<string, string>, parts: seq<BodyPart>)

  // ---------------------------------------------------------------------
  // Header field names.

  /** The characters a header field name may consist of (an RFC 7230
      token). */
  predicate TokenChar(c: char)
  {
    || 'a' <= c <= 'z' || 'A' <= c <= 'Z' || '0' <= c <= '9'
    || c == '!' || '#' <= c <= '\'' || c == '*' || c == '+' || c == '-' || c == '.'
    || c == '^' || c == '_' || c == '`' || c == '|' || c == '~'
  }

  /** ASCII upper-casing of one character. */
  function UpperChar(c: char): (r: char)
    ensures 'a' <= c <= 'z' ==> 'A' <= r <= 'Z'
    ensures !('a' <= c <= 'z') ==> r == c
  {
    if 'a' <= c <= 'z' then (c as int - 32) as char else c
  }

  /** Upper- and lower-casing keep a character a token character or not,
      and a hyphen or not. */
  lemma CaseKeepsClass(c: char)
    ensures TokenChar(UpperChar(c)) == TokenChar(c) && TokenChar(LowerChar(c)) == TokenChar(c)
    ensures (UpperChar(c) == '-') == (c == '-') && (LowerChar(c) == '-') == (c == '-')
  {
  }

  /** Every character of `s` is a token character. */
  predicate AllToken(s: string)
  {
    forall i :: 0 <= i < |s| ==> TokenChar(s[i])
  }

  /** The canonical case of the character at `i`: upper at the start and
      after a hyphen, lower elsewhere. */
  function CaseAt(s: string, i: int): char
    requires 0 <= i < |s|
  {
    if i == 0 || s[i - 1] == '-' then UpperChar(s[i]) else LowerChar(s[i])
  }

  /** The canonical form of a header field name, under which setting a
      field replaces any field of the same name: a name made of token
      characters has its first letter and every letter after a hyphen
      upper-cased and the others lower-cased; any other name is kept. */
  function Canonical(name: string): (r: string)
    ensures |r| == |name|
  {
    if AllToken(name) then seq(|name|, i requires 0 <= i < |name| => CaseAt(name, i)) else name
  }

  /** One character of a canonical name is already in canonical case. */
  lemma CaseAtCanonical(name: string, i: int)
    requires AllToken(name) && 0 <= i < |name|
    ensures CaseAt(Canonical(name), i) == Canonical(name)[i]
  {
    var c := Canonical(name);
    assert c[i] == CaseAt(name, i);
    if i > 0 {
      assert c[i - 1] == CaseAt(name, i - 1);
      CaseKeepsClass(name[i - 1]);
    }
  }

  /** Setting a field twice under the same name is setting it once:
      canonical names are their own canonical form. */
  lemma CanonicalIdempotent(name: string)
    ensures Canonical(Canonical(name)) == Canonical(name)
  {
    var c := Canonical(name);
    if AllToken(name) {
      forall i | 0 <= i < |c|
        ensures TokenChar(c[i])
      {
        assert c[i] == CaseAt(name, i);
        CaseKeepsClass(name[i]);
      }
      assert AllToken(c);
      forall i | 0 <= i < |c|
        ensures Canonical(c)[i] == c[i]
      {
        CaseAtCanonical(name, i);
      }
    }
  }

  /** Token field names that differ only in letter case name the same
      field (a name with other characters is kept as given, case and
      all). */
  lemma CanonicalIgnoresCase(name: string)
    requires AllToken(name)
    ensures Canonical(ToLower(name)) == Canonical(name)
  {
    var l := ToLower(name);
    forall i | 0 <= i < |name|
      ensures TokenChar(l[i]) && (l[i] == '-') == (name[i] == '-')
    {
      CaseKeepsClass(name[i]);
    }
    assert AllToken(l);
    forall i | 0 <= i < |name|
      ensures Canonical(l)[i] == Canonical(name)[i]
    {
      assert UpperChar(l[i]) == UpperChar(name[i]) && LowerChar(l[i]) == LowerChar(name[i]);
    }
  }

  /** Some field name of `names` has canonical form `n`. */
  predicate NamedIn(names: set<string>, n: string)
  {
    exists k :: k in names && Canonical(k) == n
  }

  /** `v` is the value of a custom field whose name has canonical form `n`. */
  predicate ChosenCustom(custom: map<string, string>, n: string, v: string)
  {
    exists k :: k in custom && Canonical(k) == n && custom[k] == v
  }

  /** No other custom field name shares the canonical form of `k`. */
  predicate UniqueName(custom: map<string, string>, k: string)
  {
    forall k2 :: k2 in custom && Canonical(k2) == Canonical(k) ==> k2 == k
  }

  // ---------------------------------------------------------------------
  // Composition of a message.

  /** An address list as written in a header: each bare address in angle
      brackets, separated by commas. */
  function AddressList(addrs: seq<string>): (r: string)
    ensures addrs == [] ==> r == ""
    ensures |addrs| == 1 ==> r == "<" + addrs[0] + ">"
  {
    Join(Bracketed(addrs), ", ")
  }

  /** Each address in angle brackets. */
  function Bracketed(addrs: seq<string>): (r: seq<string>)
    ensures |r| == |addrs| && forall i :: 0 <= i < |addrs| ==> r[i] == "<" + addrs[i] + ">"
  {
    seq(|addrs|, i requires 0 <= i < |addrs| => "<" + addrs[i] + ">")
  }

  /** One more address extends the list by a comma, a space and the
      address in angle brackets. */
  lemma AddressListSnoc(addrs: seq<string>, a: string)
    requires |addrs| > 0
    ensures AddressList(addrs + [a]) == AddressList(addrs) + ", " + ("<" + a + ">")
  {
    assert Bracketed(addrs + [a]) == Bracketed(addrs) + ["<" + a + ">"];
    JoinSnoc(Bracketed(addrs), "<" + a + ">", ", ");
  }

  /** The Message-ID of a sent message: the send time in nanoseconds and the
      account name at the SMTP host. */
  function SentMessageId(nanos: nat, username: string): (r: string)
    ensures HasPrefix(r, "<") && r[|r| - 1] == '>'
    ensures Contains(r, username)
    ensures |r| >= |SmtpServer| + 2 && r[|r| - |SmtpServer| - 2..] == "@" + SmtpServer + ">"
  {
    var r := "<" + FormatNat(nanos) + "." + username + "@" + SmtpServer + ">";
    var k := |FormatNat(nanos)| + 2;
    assert r[k..k + |username|] == username;
    OccursContains(r, username, k);
    r
  }

  /** Messages sent at different times get different Message-IDs. */
  lemma SentMessageIdDistinct(nanos1: nat, nanos2: nat, username: string)
    requires nanos1 != nanos2
    ensures SentMessageId(nanos1, username) != SentMessageId(nanos2, username)
  {
    FormatNatValue(nanos1);
    FormatNatValue(nanos2);
    IdTextDistinct(FormatNat(nanos1), FormatNat(nanos2), username, SmtpServer);
  }

  /** Message-ID texts that differ in their time part differ. */
  lemma IdTextDistinct(d1: string, d2: string, user: string, host: string)
    requires d1 != d2
    ensures "<" + d1 + "." + user + "@" + host + ">" != "<" + d2 + "." + user + "@" + host + ">"
  {
    var r1 := "<" + d1 + "." + user + "@" + host + ">";
    var r2 := "<" + d2 + "." + user + "@" + host + ">";
    if |d1| == |d2| {
      assert r1[1..1 + |d1|] == d1 && r2[1..1 + |d2|] == d2;
    } else {
      assert |r1| != |r2|;
    }
  }

  /** The header fields every message gets before the custom ones: Date,
      From, To, Cc only when there are Cc recipients, Subject and
      Message-ID (whose canonical name is "Message-Id"). Bcc recipients
      are not an argument: they never reach the header. */
  function DefaultHeader(from: string, to: seq<string>, cc: seq<string>, subject: string,
                         dateText: string, messageId: string): (h: map<string, string>)
    ensures "From" in h && h["From"] == AddressList([from])
    ensures "To" in h && h["To"] == AddressList(to)
    ensures "Subject" in h && h["Subject"] == subject
    ensures "Message-Id" in h && h["Message-Id"] == messageId
    ensures "Cc" in h <==> |cc| > 0
    ensures |cc| > 0 ==> h["Cc"] == AddressList(cc)
  {
    var h := map["Date" := dateText, "From" := AddressList([from]), "To" := AddressList(to),
                 "Subject" := subject, "Message-Id" := messageId];
    if |cc| > 0 then h["Cc" := AddressList(cc)] else h
  }

  /** The field names of the default header are exactly these. */
  lemma DefaultHeaderNames(from: string, to: seq<string>, cc: seq<string>, subject: string,
                           dateText: string, messageId: string)
    ensures DefaultHeader(from, to, cc, subject, dateText, messageId).Keys
      == {"Date", "From", "To", "Subject", "Message-Id"} + (if |cc| > 0 then {"Cc"} else {})
  {
  }

  /** The top-level content type: an alternative of plain text and HTML,
      or plain text alone. */
  function TopContentType(html: bool): (r: string)
    ensures html <==> r == AlternativeType
  {
    if html then AlternativeType else PlainType
  }

  /** The body parts: for an HTML body, its plain-text rendering followed
      by the HTML itself; otherwise the body as the one plain-text part. */
  function BodyParts(body: string, html: bool): (r: seq<BodyPart>)
    ensures html ==> r == [BodyPart(PlainType, StripHtml(body)), BodyPart(HtmlType, body)]
    ensures !html ==> r == [BodyPart(PlainType, body)]
  {
    if html then [BodyPart(PlainType, StripHtml(body)), BodyPart(HtmlType, body)]
    else [BodyPart(PlainType, body)]
  }

  /** `h` is the default header `d` with every custom field set over it
      under its canonical name, in some order, and then Content-Type set to
      `ct`: a field is present iff it is Content-Type, a default one, or a
      custom one; a default field no custom name overrides keeps its value;
      an overridden one holds one of the custom values of that name. */
  ghost predicate HeaderShape(h: map<string, string>, d: map<string, string>,
                        custom: map<string, string>, ct: string)
  {
    && "Content-Type" in h && h["Content-Type"] == ct
    && (forall n :: n in h <==> n == "Content-Type" || n in d || NamedIn(custom.Keys, n))
    && (forall n :: n in h && n != "Content-Type" && !NamedIn(custom.Keys, n) ==> n in d && h[n] == d[n])
    && (forall n :: n in h && n != "Content-Type" && NamedIn(custom.Keys, n) ==> ChosenCustom(custom, n, h[n]))
  }

  /** `m` is a message composed from the send arguments: sent from `from`
      to the envelope `to ++ cc ++ bcc`, with the header described by
      `HeaderShape` and the body parts `BodyParts`. */
  ghost predicate Composed(m: Outgoing, from: string, to: seq<string>, subject: string, body: string,
                     opts: SendOptions, dateText: string, messageId: string)
  {
    && m.from == from
    && m.recipients == to + opts.cc + opts.bcc
    && HeaderShape(m.header, DefaultHeader(from, to, opts.cc, subject, dateText, messageId),
                   opts.headers, TopContentType(opts.html))
    && m.parts == BodyParts(body, opts.html)
  }

  /** The state of the header part-way through setting the custom fields:
      the names in `done` have been set over `d`. */
  ghost predicate Overlaid(h: map<string, string>, d: map<string, string>,
                     custom: map<string, string>, done: set<string>)
    requires done <= custom.Keys
  {
    && (forall n :: n in h <==> n in d || NamedIn(done, n))
    && (forall n :: n in h && !NamedIn(done, n) ==> n in d && h[n] == d[n])
    && (forall n :: n in h && NamedIn(done, n) ==> exists k :: k in done && Canonical(k) == n && custom[k] == h[n])
  }

  /** Setting one more custom field keeps the header overlaid. */
  lemma OverlaidStep(h: map<string, string>, d: map<string, string>,
                     custom: map<string, string>, done: set<string>, k: string)
    requires done <= custom.Keys && k in custom
    requires Overlaid(h, d, custom, done)
    ensures Overlaid(h[Canonical(k) := custom[k]], d, custom, done + {k})
  {
    var done' := done + {k};
    var h' := h[Canonical(k) := custom[k]];
    forall n | n in h' && NamedIn(done', n)
      ensures exists k2 :: k2 in done' && Canonical(k2) == n && custom[k2] == h'[n]
    {
      if n == Canonical(k) {
        assert k in done' && custom[k] == h'[n];
      } else {
        var k2 :| k2 in done' && Canonical(k2) == n;
        assert k2 in done;
        assert NamedIn(done, n);
      }
    }
    forall n | n in h' && !NamedIn(done', n)
      ensures n in d && h'[n] == d[n]
    {
      assert n != Canonical(k);
      assert !NamedIn(done, n);
    }
    forall n ensures n in h' <==> n in d || NamedIn(done', n) {
      if NamedIn(done', n) && n != Canonical(k) {
        var k2 :| k2 in done' && Canonical(k2) == n;
        assert NamedIn(done, n);
      }
      if NamedIn(done, n) {
        var k2 :| k2 in done && Canonical(k2) == n;
        assert k2 in done';
      }
    }
  }

  /** Once every custom field is set, setting Content-Type gives the
      header `HeaderShape` describes. */
  lemma OverlaidShape(h: map<string, string>, d: map<string, string>,
                      custom: map<string, string>, ct: string)
    requires Overlaid(h, d, custom, custom.Keys)
    ensures HeaderShape(h["Content-Type" := ct], d, custom, ct)
  {
    var h' := h["Content-Type" := ct];
    forall n | n in h' && n != "Content-Type" && NamedIn(custom.Keys, n)
      ensures ChosenCustom(custom, n, h'[n])
    {
      var k2 :| k2 in custom.Keys && Canonical(k2) == n && custom[k2] == h[n];
    }
  }

  /** Sets each custom field over `d` under its canonical name, in
      whatever order the map yields them. */
  method SetCustomFields(d: map<string, string>, custom: map<string, string>) returns (h: map<string, string>)
    ensures Overlaid(h, d, custom, custom.Keys)
  {
    h := d;
    var pending := custom.Keys;
    ghost var done: set<string> := {};
    while pending != {}
      invariant done + pending == custom.Keys && done !! pending
      invariant Overlaid(h, d, custom, done)
      decreases |pending|
    {
      var k :| k in pending;
      OverlaidStep(h, d, custom, done, k);
      h := h[Canonical(k) := custom[k]];
      done := done + {k};
      pending := pending - {k};
    }
    assert done == custom.Keys;
  }

  /** Builds the message for a send: the default fields, then the custom
      fields, then the content type, the body parts and the recipient
      list. */
  method Compose(from: string, to: seq<string>, subject: string, body: string,
                 opts: SendOptions, dateText: string, messageId: string) returns (m: Outgoing)
    ensures Composed(m, from, to, subject, body, opts, dateText, messageId)
  {
    var d := DefaultHeader(from, to, opts.cc, subject, dateText, messageId);
    var h := SetCustomFields(d, opts.headers);
    var ct := TopContentType(opts.html);
    OverlaidShape(h, d, opts.headers, ct);
    var header := h["Content-Type" := ct];
    var parts;
    if opts.html {
      var plain := StripHtmlText(body);
      parts := [BodyPart(PlainType, plain), BodyPart(HtmlType, body)];
    } else {
      parts := [BodyPart(PlainType, body)];
    }
    var recipients := to;
    recipients := recipients + opts.cc;
    recipients := recipients + opts.bcc;
    m := Outgoing(from, recipients, header, parts);
  }

  // ---------------------------------------------------------------------
  // What a composed header promises.

  /** No Bcc field is written unless a custom field of that name is given:
      the Bcc recipients travel only in the envelope. */
  lemma BccNotInHeader(m: Outgoing, from: string, to: seq<string>, subject: string, body: string,
                       opts: SendOptions, dateText: string, messageId: string)
    requires Composed(m, from, to, subject, body, opts, dateText, messageId)
    requires !NamedIn(opts.headers.Keys, "Bcc")
    ensures "Bcc" !in m.header
    ensures m.recipients[|to| + |opts.cc|..] == opts.bcc
  {
    DefaultHeaderNames(from, to, opts.cc, subject, dateText, messageId);
    assert (to + opts.cc + opts.bcc)[|to| + |opts.cc|..] == opts.bcc;
  }

  /** A Cc field is written exactly when there are Cc recipients (or a
      custom Cc field), and then lists them unless overridden. */
  lemma CcPresence(m: Outgoing, from: string, to: seq<string>, subject: string, body: string,
                   opts: SendOptions, dateText: string, messageId: string)
    requires Composed(m, from, to, subject, body, opts, dateText, messageId)
    ensures "Cc" in m.header <==> |opts.cc| > 0 || NamedIn(opts.headers.Keys, "Cc")
    ensures |opts.cc| > 0 && !NamedIn(opts.headers.Keys, "Cc") ==> m.header["Cc"] == AddressList(opts.cc)
  {
  }

  /** A custom field whose name no other custom field shares replaces the
      default field of that name; only Content-Type, set last, cannot be
      overridden. */
  lemma CustomOverrides(m: Outgoing, from: string, to: seq<string>, subject: string, body: string,
                        opts: SendOptions, dateText: string, messageId: string, k: string)
    requires Composed(m, from, to, subject, body, opts, dateText, messageId)
    requires k in opts.headers && UniqueName(opts.headers, k)
    ensures Canonical(k) != "Content-Type" ==> Canonical(k) in m.header && m.header[Canonical(k)] == opts.headers[k]
    ensures m.header["Content-Type"] == TopContentType(opts.html)
  {
    var n := Canonical(k);
    if n != "Content-Type" {
      assert NamedIn(opts.headers.Keys, n);
      assert ChosenCustom(opts.headers, n, m.header[n]);
      var k2 :| k2 in opts.headers && Canonical(k2) == n && opts.headers[k2] == m.header[n];
      assert k2 == k;
    }
  }

  /** Without custom fields the header is exactly the default one plus the
      content type. */
  lemma PlainHeader(m: Outgoing, from: string, to: seq<string>, subject: string, body: string,
                    opts: SendOptions, dateText: string, messageId: string)
    requires Composed(m, from, to, subject, body, opts, dateText, messageId)
    requires opts.headers == map[]
    ensures m.header == DefaultHeader(from, to, opts.cc, subject, dateText, messageId)["Content-Type" := TopContentType(opts.html)]
  {
    var d := DefaultHeader(from, to, opts.cc, subject, dateText, messageId);
    DefaultHeaderNames(from, to, opts.cc, subject, dateText, messageId);
    assert forall n :: !NamedIn(opts.headers.Keys, n);
    assert m.header.Keys == d["Content-Type" := TopContentType(opts.html)].Keys;
  }

  // ---------------------------------------------------------------------
  // Plain-text rendering of HTML.

  /** The line-break tags replaced before the remaining tags are dropped:
      `<br>`, `<br/>` and `<br />` become a newline, `</p>` two, `</div>`
      one. */
  function BreakTags(html: string): string
  {
    var t := ReplaceAll(html, "<br>", "\n");
    var t := ReplaceAll(t, "<br/>", "\n");
    var t := ReplaceAll(t, "<br />", "\n");
    var t := ReplaceAll(t, "</p>", "\n\n");
    ReplaceAll(t, "</div>", "\n")
  }

  /** Text with no `<` is left as it is by the break-tag replacements. */
  lemma BreakTagsPlain(html: string)
    requires '<' !in html
    ensures BreakTags(html) == html
  {
    ReplaceAllAbsent(html, "<br>", "\n");
    ReplaceAllAbsent(html, "<br/>", "\n");
    ReplaceAllAbsent(html, "<br />", "\n");
    ReplaceAllAbsent(html, "</p>", "\n\n");
    ReplaceAllAbsent(html, "</div>", "\n");
  }

  /** A `<br>` after tag-free text `a` becomes one newline, and the rest is
      rendered on its own. */
  lemma BreakTagsBreak(a: string, b: string)
    requires '<' !in a
    ensures BreakTags(a + "<br>" + b) == a + "\n" + BreakTags(b)
  {
    var a' := a + "\n";
    assert '<' !in a' by { assert forall k :: 0 <= k < |a| ==> a'[k] == a[k]; }
    var t1 := ReplaceAll(b, "<br>", "\n");
    ReplaceAllReplaced(a, b, "<br>", "\n");
    var t2 := ReplaceAll(t1, "<br/>", "\n");
    ReplaceAllSkip(a', t1, "<br/>", "\n");
    var t3 := ReplaceAll(t2, "<br />", "\n");
    ReplaceAllSkip(a', t2, "<br />", "\n");
    var t4 := ReplaceAll(t3, "</p>", "\n\n");
    ReplaceAllSkip(a', t3, "</p>", "\n\n");
    ReplaceAllSkip(a', t4, "</div>", "\n");
  }

  /** A `</p>` after tag-free text `a` becomes two newlines, and the rest is
      rendered on its own. */
  lemma BreakTagsParagraph(a: string, b: string)
    requires '<' !in a
    ensures BreakTags(a + "</p>" + b) == a + "\n\n" + BreakTags(b)
  {
    var q := "</p>";
    assert '<' !in q[1..];
    var a' := a + "\n\n";
    assert '<' !in a' by { assert forall k :: 0 <= k < |a| ==> a'[k] == a[k]; }
    var t1 := ReplaceAll(b, "<br>", "\n");
    ReplaceAllKept(a, q, b, "<br>", "\n", 1);
    var t2 := ReplaceAll(t1, "<br/>", "\n");
    ReplaceAllKept(a, q, t1, "<br/>", "\n", 1);
    var t3 := ReplaceAll(t2, "<br />", "\n");
    ReplaceAllKept(a, q, t2, "<br />", "\n", 1);
    var t4 := ReplaceAll(t3, "</p>", "\n\n");
    ReplaceAllReplaced(a, t3, "</p>", "\n\n");
    ReplaceAllSkip(a', t4, "</div>", "\n");
  }

  /** A `</div>` after tag-free text `a` becomes one newline, and the rest
      is rendered on its own. */
  lemma BreakTagsBlock(a: string, b: string)
    requires '<' !in a
    ensures BreakTags(a + "</div>" + b) == a + "\n" + BreakTags(b)
  {
    var q := "</div>";
    assert '<' !in q[1..];
    var t1 := ReplaceAll(b, "<br>", "\n");
    ReplaceAllKept(a, q, b, "<br>", "\n", 1);
    var t2 := ReplaceAll(t1, "<br/>", "\n");
    ReplaceAllKept(a, q, t1, "<br/>", "\n", 1);
    var t3 := ReplaceAll(t2, "<br />", "\n");
    ReplaceAllKept(a, q, t2, "<br />", "\n", 1);
    var t4 := ReplaceAll(t3, "</p>", "\n\n");
    ReplaceAllKept(a, q, t3, "</p>", "\n\n", 2);
    ReplaceAllReplaced(a, t4, "</div>", "\n");
  }

  /** The characters kept once every `<`…`>` span is removed, starting
      inside a tag when `inTag` holds. */
  function DropTags(s: string, inTag: bool): (r: string)
    ensures '<' !in r && '>' !in r
  {
    if s == [] then []
    else if s[0] == '<' then DropTags(s[1..], true)
    else if s[0] == '>' then DropTags(s[1..], false)
    else if inTag then DropTags(s[1..], true)
    else [s[0]] + DropTags(s[1..], false)
  }

  /** The plain-text version of an HTML body. */
  function StripHtml(html: string): (r: string)
  {
    TrimSpace(DropTags(BreakTags(html), false))
  }

  /** The plain-text version never contains an angle bracket. */
  lemma StripHtmlNoBrackets(html: string)
    ensures '<' !in StripHtml(html) && '>' !in StripHtml(html)
  {
    var dropped := DropTags(BreakTags(html), false);
    if '<' in StripHtml(html) {
      TrimSpaceChars(dropped, '<');
    }
    if '>' in StripHtml(html) {
      TrimSpaceChars(dropped, '>');
    }
  }

  /** The body parts agree with the top-level type: two parts exactly
      under the alternative type; the first part is always plain text, and
      for an HTML body it carries no tag brackets; the last part carries
      the body as given. */
  lemma BodyPartsShape(body: string, html: bool)
    ensures var parts := BodyParts(body, html);
      && (|parts| == 2 <==> TopContentType(html) == AlternativeType)
      && (|parts| == 1 <==> TopContentType(html) == PlainType)
      && parts[0].contentType == PlainType
      && (html ==> '<' !in parts[0].text && '>' !in parts[0].text)
      && parts[|parts| - 1].text == body
  {
    if html {
      StripHtmlNoBrackets(body);
    }
  }

  /** Text without tags is kept as it is by the tag removal. */
  lemma {:induction false} DropTagsPlain(s: string)
    requires '<' !in s && '>' !in s
    ensures DropTags(s, false) == s
  {
    if s != [] {
      assert '<' !in s[1..] && '>' !in s[1..] by {
        forall k | 0 <= k < |s| - 1 ensures s[1..][k] == s[k + 1] { }
      }
      DropTagsPlain(s[1..]);
      assert s == [s[0]] + s[1..];
    }
  }

  /** Inside a tag everything up to and including the next `>` is dropped. */
  lemma {:induction false} DropTagsInside(t: string, b: string)
    requires '>' !in t
    ensures DropTags(t + ">" + b, true) == DropTags(b, false)
  {
    if t != [] {
      assert '>' !in t[1..] by {
        forall k | 0 <= k < |t| - 1 ensures t[1..][k] == t[k + 1] { }
      }
      assert (t + ">" + b)[1..] == t[1..] + ">" + b;
      DropTagsInside(t[1..], b);
    } else {
      assert (t + ">" + b)[1..] == b;
    }
  }

  /** A tag `<t>` after plain text `a` disappears, brackets and all, and
      the text after it is processed afresh. */
  lemma {:induction false} DropTagsSpan(a: string, t: string, b: string)
    requires '<' !in a && '>' !in a && '>' !in t
    ensures DropTags(a + "<" + t + ">" + b, false) == a + DropTags(b, false)
  {
    if a == [] {
      assert (a + "<" + t + ">" + b)[1..] == t + ">" + b;
      DropTagsInside(t, b);
    } else {
      assert '<' !in a[1..] && '>' !in a[1..] by {
        forall k | 0 <= k < |a| - 1 ensures a[1..][k] == a[k + 1] { }
      }
      assert (a + "<" + t + ">" + b)[1..] == a[1..] + "<" + t + ">" + b;
      DropTagsSpan(a[1..], t, b);
      assert a == [a[0]] + a[1..];
    }
  }

  /** Text with no angle brackets and no surrounding white space is its own
      plain-text version. */
  lemma StripHtmlPlain(text: string)
    requires '<' !in text && '>' !in text
    requires text == [] || (!IsSpace(text[0]) && !IsSpace(text[|text| - 1]))
    ensures StripHtml(text) == text
  {
    BreakTagsPlain(text);
    DropTagsPlain(text);
  }

  /** Walks the text once, dropping every character from a `<` up to the
      next `>` and both brackets. */
  method RemoveTags(text: string) returns (result: string)
    ensures result == DropTags(text, false)
  {
    var inTag := false;
    result := "";
    var i := 0;
    while i < |text|
      invariant 0 <= i <= |text|
      invariant result + DropTags(text[i..], inTag) == DropTags(text, false)
    {
      var c := text[i];
      assert text[i..] == [c] + text[i + 1..];
      if c == '<' {
        inTag := true;
      } else if c == '>' {
        inTag := false;
      } else if !inTag {
        result := result + [c];
      }
      i := i + 1;
    }
  }

  /** Replaces the break tags, removes the remaining tags, then trims the
      white space. */
  method StripHtmlText(html: string) returns (r: string)
    ensures r == StripHtml(html)
    ensures '<' !in r && '>' !in r
  {
    var text := BreakTags(html);
    var kept := RemoveTags(text);
    r := TrimSpace(kept);
    StripHtmlNoBrackets(html);
  }

  // ---------------------------------------------------------------------
  // Replies.

  /** The addresses of `addrs` that do not contain `username` (a
      case-sensitive substring test), in order. */
  function Others(addrs: seq<string>, username: string): (r: seq<string>)
    ensures |r| <= |addrs|
  {
    if addrs == [] then []
    else
      var rest := Others(addrs[..|addrs| - 1], username);
      var last := addrs[|addrs| - 1];
      if Contains(last, username) then rest else rest + [last]
  }

  /** An address is kept exactly when it is one of `addrs` and does not
      contain the account name. */
  lemma {:induction false} OthersMembers(addrs: seq<string>, username: string, x: string)
    ensures x in Others(addrs, username) <==> x in addrs && !Contains(x, username)
    decreases |addrs|
  {
    if addrs != [] {
      var init := addrs[..|addrs| - 1];
      OthersMembers(init, username, x);
      assert addrs == init + [addrs[|addrs| - 1]];
    }
  }

  /** The Cc list of a reply: with reply-all, the original's To and then Cc
      addresses other than the account's own; then the extra Cc addresses
      given. */
  function ReplyCc(original: Email, replyAll: bool, extra: seq<string>, username: string): seq<string>
  {
    (if replyAll then Others(original.to, username) + Others(original.cc, username) else []) + extra
  }

  /** The threading fields of a reply: In-Reply-To and References (the
      original's references followed by its Message-ID), only when the
      original has a Message-ID. */
  function ThreadingFields(original: Email): (r: map<string, string>)
    ensures r.Keys == if original.messageId != "" then {"In-Reply-To", "References"} else {}
  {
    if original.messageId != "" then
      map["In-Reply-To" := original.messageId,
          "References" := ReferencesChain(original.references, original.messageId)]
    else map[]
  }

  /** The options a reply is sent with: the reply Cc list, the Bcc list and
      HTML choice as given, and the threading fields with the given custom
      fields over them. */
  function ReplyOptions(original: Email, replyAll: bool, opts: SendOptions, username: string): SendOptions
  {
    SendOptions(ReplyCc(original, replyAll, opts.cc, username), opts.bcc, opts.html,
                ThreadingFields(original) + opts.headers)
  }

  /** Who a reply copies: an address is on the Cc list iff it was given as
      an extra Cc, or reply-all is on and it is an original To or Cc
      address that does not contain the account name. The given extras
      come last, in order. */
  lemma ReplyCcMembers(original: Email, replyAll: bool, extra: seq<string>, username: string, x: string)
    ensures x in ReplyCc(original, replyAll, extra, username) <==>
      x in extra || (replyAll && (x in original.to || x in original.cc) && !Contains(x, username))
    ensures var cc := ReplyCc(original, replyAll, extra, username);
      |cc| >= |extra| && cc[|cc| - |extra|..] == extra
    ensures !replyAll ==> ReplyCc(original, replyAll, extra, username) == extra
  {
    OthersMembers(original.to, username, x);
    OthersMembers(original.cc, username, x);
  }

  /** The threading fields of a reply: In-Reply-To names the original and
      References extends its chain, unless a custom field of exactly that
      name replaces them; without a Message-ID neither is added. */
  lemma ReplyThreading(original: Email, replyAll: bool, opts: SendOptions, username: string)
    ensures var h := ReplyOptions(original, replyAll, opts, username).headers;
      && (original.messageId != "" && "In-Reply-To" !in opts.headers ==>
            "In-Reply-To" in h && h["In-Reply-To"] == original.messageId)
      && (original.messageId != "" && "References" !in opts.headers ==>
            "References" in h && h["References"] == Join(original.references + [original.messageId], " "))
      && (original.messageId == "" ==> h == opts.headers)
  {
    if original.messageId == "" {
      assert ThreadingFields(original) == map[];
      assert map[] + opts.headers == opts.headers;
    }
  }

  /** Keeps the addresses that do not contain the account name, one at a
      time. */
  method OmitSelf(addrs: seq<string>, username: string) returns (kept: seq<string>)
    ensures kept == Others(addrs, username)
  {
    kept := [];
    for i := 0 to |addrs|
      invariant kept == Others(addrs[..i], username)
    {
      assert addrs[..i + 1][..i] == addrs[..i];
      if !Contains(addrs[i], username) {
        kept := kept + [addrs[i]];
      }
    }
    assert addrs[..|addrs|] == addrs;
  }

  /** Fills in the threading fields of a reply one at a time. */
  method ThreadingHeaders(original: Email) returns (headers: map<string, string>)
    ensures headers == ThreadingFields(original)
  {
    headers := map[];
    if original.messageId != "" {
      headers := headers["In-Reply-To" := original.messageId];
      var refs: seq<string> := [];
      if |original.references| > 0 {
        refs := refs + original.references;
      }
      refs := refs + [original.messageId];
      assert refs == original.references + [original.messageId];
      if |original.references| > 0 {
        JoinSnoc(original.references, original.messageId, " ");
      }
      assert Join(refs, " ") == ReferencesChain(original.references, original.messageId);
      headers := headers["References" := Join(refs, " ")];
    }
  }

  /** Works out the recipients, subject and options of a reply: the
      original sender as the one To address, the Cc list, the "Re: "
      subject and the threading fields. */
  method PlanReply(original: Email, replyAll: bool, opts: SendOptions, username: string)
    returns (to: seq<string>, subject: string, sendOpts: SendOptions)
    ensures to == [original.from]
    ensures subject == ReplySubject(original.subject)
    ensures sendOpts == ReplyOptions(original, replyAll, opts, username)
  {
    to := [original.from];
    var cc: seq<string> := [];
    if replyAll {
      var fromTo := OmitSelf(original.to, username);
      cc := cc + fromTo;
      var fromCc := OmitSelf(original.cc, username);
      cc := cc + fromCc;
    }
    if |opts.cc| > 0 {
      cc := cc + opts.cc;
    }
    assert cc == ReplyCc(original, replyAll, opts.cc, username);
    subject := original.subject;
    if !HasPrefix(ToLower(subject), "re:") {
      subject := "Re: " + subject;
    }
    assert subject == ReplySubject(original.subject);
    var headers := ThreadingHeaders(original);
    headers := headers + opts.headers;
    sendOpts := SendOptions(cc, opts.bcc, opts.html, headers);
  }

  // ---------------------------------------------------------------------
  // The transport and the client.

  /** The SMTP submission service: it records every message handed to it,
      or refuses it while a failure is injected. */
  class Transport {
    var sent: seq<Outgoing>
    var failure: Option<string>

    constructor ()
      ensures sent == [] && failure == None
    {
      sent := [];
      failure := None;
    }

    /** Makes every later submission fail with `text`. */
    method InjectFailure(text: string)
      modifies this
      ensures failure == Some(text) && sent == old(sent)
    {
      failure := Some(text);
    }

    /** Hands one message over: it is recorded unless a failure is injected,
      whose text is then returned. */
    method Submit(m: Outgoing) returns (err: Option<string>)
      modifies this
      ensures err == old(failure) && failure == old(failure)
      ensures sent == if err.None? then old(sent) + [m] else old(sent)
    {
      err := failure;
      if err.None? {
        sent := sent + [m];
      }
    }
  }

  /** The mail-sending client of one account. */
  class SmtpClient {
    const username: string
    const transport: Transport

    constructor (username: string, transport: Transport)
      ensures this.username == username && this.transport == transport
    {
      this.username := username;
      this.transport := transport;
    }

    /** Composes a message and submits it; a refused submission is reported
      as "failed to send email: …" and records nothing. The Message-ID
      names the submission time `nanos` and the account. */
    method SendEmail(from: string, to: seq<string>, subject: string, body: string,
                     opts: SendOptions, dateText: string, nanos: nat) returns (r: Outcome)
      modifies transport
      ensures transport.failure == old(transport.failure)
      ensures old(transport.failure).Some? ==>
        r == Fail("failed to send email: " + old(transport.failure).value) && transport.sent == old(transport.sent)
      ensures old(transport.failure).None? ==>
        && r == Pass
        && |transport.sent| == |old(transport.sent)| + 1
        && transport.sent[..|old(transport.sent)|] == old(transport.sent)
        && Composed(transport.sent[|old(transport.sent)|], from, to, subject, body, opts,
                    dateText, SentMessageId(nanos, username))
    {
      var m := Compose(from, to, subject, body, opts, dateText, SentMessageId(nanos, username));
      var err := transport.Submit(m);
      if err.Some? {
        return Fail("failed to send email: " + err.value);
      }
      assert transport.sent[..|old(transport.sent)|] == old(transport.sent);
      r := Pass;
    }

    /** Replies to `original` from the account's own address, to the
      original sender, with the reply subject, Cc list and threading
      fields. */
    method ReplyToEmail(original: Email, body: string, replyAll: bool, opts: SendOptions,
                        dateText: string, nanos: nat) returns (r: Outcome)
      modifies transport
      ensures transport.failure == old(transport.failure)
      ensures old(transport.failure).Some? ==>
        r == Fail("failed to send email: " + old(transport.failure).value) && transport.sent == old(transport.sent)
      ensures old(transport.failure).None? ==>
        && r == Pass
        && |transport.sent| == |old(transport.sent)| + 1
        && transport.sent[..|old(transport.sent)|] == old(transport.sent)
        && Composed(transport.sent[|old(transport.sent)|], username, [original.from],
                    ReplySubject(original.subject), body, ReplyOptions(original, replyAll, opts, username),
                    dateText, SentMessageId(nanos, username))
    {
      var to, subject, sendOpts := PlanReply(original, replyAll, opts, username);
      r := SendEmail(username, to, subject, body, sendOpts, dateText, nanos);
    }
  }
}
