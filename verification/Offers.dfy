/** Which confirmation tools a turn is offered (app/agent/interaction.py): a kind is
    offered when the tag `tipo=<kind>` occurs in the summary of the contact's
    pending and claimed actions, whose texts the summary quotes. */
module Offers {
  import opened PendingActions
  import opened Text

  const MAX_SUMMARY_TEXT: nat := 120
  const MAX_SUMMARY_START: nat := 64

  function KindName(kind: Kind): string {
    match kind
    case SendEmail => "send_email"
    case CreateEvent => "create_event"
  }

  function Tag(kind: Kind): string { "tipo=" + KindName(kind) }

  /** The two texts of an action that the summary quotes, squeezed and cut. */
  function Quoted(p: Payload): (string, string) {
    match p
    case EventPayload(event) => (Compact(event.title, MAX_SUMMARY_TEXT), Compact(event.start, MAX_SUMMARY_START))
    case DraftPayload(_, to, subject) => (Compact(to, MAX_SUMMARY_TEXT), Compact(subject, MAX_SUMMARY_TEXT))
  }

  function Labels(kind: Kind): (string, string) {
    match kind
    case CreateEvent => (" título=", " início=")
    case SendEmail => (" para=", " assunto=")
  }

  /** One action's entry: its id, kind and quoted texts, with semicolons between. */
  function Entry(id: ActionId, row: Action): string {
    var labels, quoted := Labels(row.kind), Quoted(row.payload);
    Join(["id=" + Decimal(id), " " + Tag(row.kind), labels.0 + quoted.0, labels.1 + quoted.1], ';')
  }

  predicate IsLoaded(row: Action, contact: ContactId) { row.contact == contact && Live(row.status) }

  /** The pending and claimed actions of the contact, expired or not. */
  function Loaded(rows: seq<Action>, contact: ContactId): set<ActionId> {
    set i: ActionId | i < |rows| && IsLoaded(rows[i], contact)
  }

  function Entries(rows: seq<Action>, contact: ContactId): string {
    if rows == [] then ""
    else
      var n := |rows| - 1;
      var before := Entries(rows[..n], contact);
      if !IsLoaded(rows[n], contact) then before
      else if before == "" then Entry(n, rows[n])
      else before + "; " + Entry(n, rows[n])
  }

  function Summary(rows: seq<Action>, contact: ContactId): string {
    var entries := Entries(rows, contact);
    if entries == "" then "nenhuma" else entries
  }

  function Offered(rows: seq<Action>, contact: ContactId): set<Kind> {
    set kind: Kind | Within(Tag(kind), Summary(rows, contact))
  }

  /** A quoted text of the action contains the tag of the kind. */
  predicate Mentions(p: Payload, kind: Kind) {
    var tag := if kind == SendEmail then "tipo=send_email" else "tipo=create_event";
    match p
    case EventPayload(event) => Within(tag, Compact(event.title, 120)) || Within(tag, Compact(event.start, 64))
    case DraftPayload(_, to, subject) => Within(tag, Compact(to, 120)) || Within(tag, Compact(subject, 120))
  }

  /** The action makes its turn an offer of the kind, by its own kind or by its text. */
  predicate Shows(row: Action, kind: Kind) { row.kind == kind || Mentions(row.payload, kind) }

  // --------------------------------------------------- where the tag can occur

  lemma WithinAround(part: string, left: string, right: string)
    requires Within(part, left) || Within(part, right)
    ensures Within(part, left + right)
  {
    WithinAt(left, left + right, 0);
    WithinAt(right, left + right, |left|);
    if Within(part, left) { WithinTrans(part, left, left + right); } else { WithinTrans(part, right, left + right); }
  }

  lemma {:induction false} WithinJoin(part: string, parts: seq<string>, c: char, k: nat)
    requires k < |parts| && Within(part, parts[k])
    ensures Within(part, Join(parts, c))
  {
    if |parts| > 1 {
      var rest := Join(parts[1..], c);
      if k > 0 {
        WithinJoin(part, parts[1..], c, k - 1);
        WithinAround(part, [c], rest);
      }
      WithinAround(part, parts[0], [c] + rest);
      assert parts[0] + [c] + rest == parts[0] + ([c] + rest);
    }
  }

  lemma TagFacts(kind: Kind)
    ensures Lacks(Tag(kind), ';') && Tag(kind)[0] == 't' && Tag(kind)[1] == 'i' && |Tag(kind)| >= 15
  {
    assert Tag(SendEmail) == "tipo=send_email" && Tag(CreateEvent) == "tipo=create_event";
  }

  /** A caption in which no t is followed by an i, nor ends it. */
  predicate Inert(caption: string) {
    && caption != "" && caption[|caption| - 1] != 't'
    && forall i :: 0 <= i < |caption| - 1 ==> !(caption[i] == 't' && caption[i + 1] == 'i')
  }

  lemma AfterLabel(kind: Kind, caption: string, text: string)
    requires Inert(caption)
    ensures Within(Tag(kind), caption + text) <==> Within(Tag(kind), text)
  {
    var tag, whole := Tag(kind), caption + text;
    TagFacts(kind);
    if Within(tag, text) { WithinAround(tag, caption, text); }
    if Within(tag, whole) {
      var i :| 0 <= i <= |whole| - |tag| && At(tag, whole, i);
      assert whole[i..i + |tag|][0] == whole[i] && whole[i..i + |tag|][1] == whole[i + 1];
      assert i >= |caption|;
      assert text[i - |caption|..i - |caption| + |tag|] == whole[i..i + |tag|];
      WithinAt(tag, text, i - |caption|);
    }
  }

  lemma NotInId(kind: Kind, id: ActionId)
    ensures !Within(Tag(kind), "id=" + Decimal(id))
  {
    var text := "id=" + Decimal(id);
    TagFacts(kind);
    assert Lacks(text, 't') by {
      forall i | 0 <= i < |text| ensures text[i] != 't' { if i >= 3 { assert text[i] == Decimal(id)[i - 3]; } }
    }
    if Within(Tag(kind), text) { WithinLacks(Tag(kind), text, 't'); }
  }

  lemma InOwnTag(kind: Kind, own: Kind)
    ensures Within(Tag(kind), " " + Tag(own)) <==> kind == own
  {
    if kind == own {
      assert (" " + Tag(own))[1..1 + |Tag(own)|] == Tag(own);
      WithinAt(Tag(kind), " " + Tag(own), 1);
    } else if kind.SendEmail? {
      assert Tag(own) == "tipo=create_event" && Tag(kind)[5] == 's';
      if Within(Tag(kind), " " + Tag(own)) { WithinLacks(Tag(kind), " " + Tag(own), 's'); }
    }
  }

  lemma LabelsAreInert(kind: Kind)
    ensures Inert(Labels(kind).0) && Inert(Labels(kind).1)
  {}

  lemma MentionsQuoted(p: Payload, kind: Kind)
    ensures Mentions(p, kind) <==> Within(Tag(kind), Quoted(p).0) || Within(Tag(kind), Quoted(p).1)
  {
    assert Tag(SendEmail) == "tipo=send_email" && Tag(CreateEvent) == "tipo=create_event";
  }

  lemma EntryShows(id: ActionId, row: Action, kind: Kind)
    ensures Within(Tag(kind), Entry(id, row)) <==> Shows(row, kind)
  {
    MentionsQuoted(row.payload, kind);
    var tag, labels, quoted := Tag(kind), Labels(row.kind), Quoted(row.payload);
    var parts := ["id=" + Decimal(id), " " + Tag(row.kind), labels.0 + quoted.0, labels.1 + quoted.1];
    TagFacts(kind);
    LabelsAreInert(row.kind);
    NotInId(kind, id);
    InOwnTag(kind, row.kind);
    AfterLabel(kind, labels.0, quoted.0);
    AfterLabel(kind, labels.1, quoted.1);
    if Within(tag, Entry(id, row)) {
      JoinWithin(tag, parts, ';');
      var k :| 0 <= k < 4 && Within(tag, parts[k]);
      assert k != 0 && (k == 1 || k == 2 || k == 3);
    }
    if Shows(row, kind) {
      WithinJoin(tag, parts, ';', if row.kind == kind then 1 else if Within(tag, quoted.0) then 2 else 3);
    }
  }

  lemma OwnTagsAre()
    ensures Tag(CreateEvent) == "tipo=create_event" && Tag(SendEmail) == "tipo=send_email"
  {}

  lemma FourJoined(a: string, b: string, c: string, d: string)
    ensures Join([a, " " + b, c, d], ';') == a + "; " + b + ";" + c + ";" + d
  {
    var parts := [a, " " + b, c, d];
    assert parts[1..] == [" " + b, c, d] && parts[1..][1..] == [c, d] && parts[1..][1..][1..] == [d];
    assert Join([d], ';') == d && Join([c, d], ';') == c + [';'] + d;
    assert Join([" " + b, c, d], ';') == (" " + b) + [';'] + (c + [';'] + d);
    assert "; " == [';'] + " ";
    assert a + [';'] + ((" " + b) + [';'] + (c + [';'] + d)) == a + "; " + b + ";" + c + ";" + d;
  }

  /** WHAT AN ENTRY SAYS: an event's title and start, an e-mail's recipient and subject,
      each squeezed and cut. */
  lemma EntryReads(id: ActionId, row: Action)
    ensures row.kind == CreateEvent && row.payload.EventPayload? ==>
              Entry(id, row) == "id=" + Decimal(id) + "; " + "tipo=create_event"
                + ";" + (" título=" + Compact(row.payload.event.title, 120))
                + ";" + (" início=" + Compact(row.payload.event.start, 64))
    ensures row.kind == SendEmail && row.payload.DraftPayload? ==>
              Entry(id, row) == "id=" + Decimal(id) + "; " + "tipo=send_email"
                + ";" + (" para=" + Compact(row.payload.to, 120))
                + ";" + (" assunto=" + Compact(row.payload.subject, 120))
  {
    OwnTagsAre();
    var labels, quoted := Labels(row.kind), Quoted(row.payload);
    FourJoined("id=" + Decimal(id), Tag(row.kind), labels.0 + quoted.0, labels.1 + quoted.1);
  }

  lemma {:induction false} NoEntries(rows: seq<Action>, contact: ContactId)
    ensures Entries(rows, contact) == "" <==> Loaded(rows, contact) == {}
  {
    if rows != [] {
      var n := |rows| - 1;
      NoEntries(rows[..n], contact);
      if IsLoaded(rows[n], contact) {
        assert n in Loaded(rows, contact);
        assert Entry(n, rows[n])[0] == 'i';
      } else {
        assert Loaded(rows, contact) == Loaded(rows[..n], contact);
      }
    }
  }

  /** WHAT THE SUMMARY SAYS: "nenhuma" without actions, else their entries in order with
      semicolons between. */
  lemma SummaryReads(rows: seq<Action>, contact: ContactId, row: Action)
    ensures Loaded(rows, contact) == {} ==> Summary(rows, contact) == "nenhuma"
    ensures !(row.contact == contact && row.status in {Status.Pending, Status.Claimed}) ==>
              Summary(rows + [row], contact) == Summary(rows, contact)
    ensures row.contact == contact && row.status in {Status.Pending, Status.Claimed} ==>
              Summary(rows + [row], contact) ==
                if Loaded(rows, contact) == {} then Entry(|rows|, row)
                else Summary(rows, contact) + "; " + Entry(|rows|, row)
  {
    NoEntries(rows, contact);
    NoEntries(rows + [row], contact);
    assert (rows + [row])[..|rows|] == rows;
  }

  ghost predicate SomeShows(rows: seq<Action>, contact: ContactId, kind: Kind) {
    exists j :: 0 <= j < |rows| && IsLoaded(rows[j], contact) && Shows(rows[j], kind)
  }

  lemma ShowsByLast(rows: seq<Action>, contact: ContactId, kind: Kind)
    requires rows != []
    ensures var n := |rows| - 1;
            SomeShows(rows, contact, kind)
            <==> SomeShows(rows[..n], contact, kind) || (IsLoaded(rows[n], contact) && Shows(rows[n], kind))
  {
    var n := |rows| - 1;
    if SomeShows(rows[..n], contact, kind) {
      var j :| 0 <= j < n && IsLoaded(rows[..n][j], contact) && Shows(rows[..n][j], kind);
      assert IsLoaded(rows[j], contact) && Shows(rows[j], kind);
    }
    if SomeShows(rows, contact, kind) {
      var j :| 0 <= j < |rows| && IsLoaded(rows[j], contact) && Shows(rows[j], kind);
      if j < n { assert IsLoaded(rows[..n][j], contact) && Shows(rows[..n][j], kind); }
    }
  }

  lemma AfterEntries(kind: Kind, before: string, entry: string)
    ensures Within(Tag(kind), before + "; " + entry) <==> Within(Tag(kind), before) || Within(Tag(kind), entry)
  {
    TagFacts(kind);
    AfterLabel(kind, " ", entry);
    assert before + "; " + entry == before + [';'] + (" " + entry);
    if Within(Tag(kind), before + "; " + entry) { WithinEither(Tag(kind), before, ';', " " + entry); }
    if Within(Tag(kind), " " + entry) { WithinAround(Tag(kind), before + [';'], " " + entry); }
    if Within(Tag(kind), before) {
      WithinAround(Tag(kind), before, [';'] + (" " + entry));
      assert before + [';'] + (" " + entry) == before + ([';'] + (" " + entry));
    }
  }

  lemma {:induction false} EntriesShow(rows: seq<Action>, contact: ContactId, kind: Kind)
    ensures Within(Tag(kind), Entries(rows, contact)) <==> SomeShows(rows, contact, kind)
  {
    TagFacts(kind);
    if rows != [] {
      var n := |rows| - 1;
      EntriesShow(rows[..n], contact, kind);
      ShowsByLast(rows, contact, kind);
      EntryShows(n, rows[n], kind);
      AfterEntries(kind, Entries(rows[..n], contact), Entry(n, rows[n]));
    }
  }

  /** A KIND IS OFFERED exactly when some pending or claimed action of the contact
      has that kind, or quotes its tag in one of its texts. */
  lemma OfferedExactly(rows: seq<Action>, contact: ContactId, kind: Kind)
    ensures kind in Offered(rows, contact)
        <==> exists j: ActionId :: j in Loaded(rows, contact) && j < |rows| && Shows(rows[j], kind)
    ensures forall j: ActionId :: j in Loaded(rows, contact) <==>
              j < |rows| && rows[j].contact == contact && rows[j].status in {Status.Pending, Status.Claimed}
  {
    TagFacts(kind);
    EntriesShow(rows, contact, kind);
    if SomeShows(rows, contact, kind) {
      var j :| 0 <= j < |rows| && IsLoaded(rows[j], contact) && Shows(rows[j], kind);
      assert j in Loaded(rows, contact);
    }
  }
}
