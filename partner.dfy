/**
  The body of the partner-assignment mail of `/send-to-partner`
  (server.js:136-169). The handler builds it with one `body += piece`
  after another: a greeting with the claim ID and the recommendation, an
  optional contact block, the attachments list (or a placeholder line), an
  optional link to the full task, and a fixed footer. The model names each
  piece (`Piece`), lists the pieces a request produces (`Pieces`), and
  renders the body as their texts written one after the other.

  The fixed text is a `PartnerWording` record; the handler uses `Wording`,
  the Lithuanian text of server.js. Everything below holds for any record
  whose fixed fragments keep the two marks (the `🔹` of the contact heading
  and the `ž` of the link heading) where the Lithuanian text keeps them.
 */
module PartnerMail {
  import opened Values

  datatype Customer = Customer(
    name: Field, surname: Field, phone: Field, email: Field,
    street: Field, city: Field, postal: Field)

  datatype Attachment = Attachment(name: Field, url: Field)

  /** The request body after destructuring. `customer` is `None` when the
      field is falsy. An absent `attachments` list is `Some([])` (the
      destructuring default); `None` stands for an explicit `null`. */
  datatype PartnerRequest = PartnerRequest(
    claimId: Field, partnerEmail: Field, partnerContactPerson: Field, note: Field,
    attachments: Option<seq<Attachment>>, claimLink: Field, customer: Option<Customer>)

  /** The fixed text of the mail, one field per literal fragment. */
  datatype PartnerWording = PartnerWording(
    greeting: string, assignedIntro: string, idLabel: string, noteLabel: string, noNote: string,
    contactHeading: string, nameLabel: string, phoneLabel: string, emailLabel: string,
    addressLabel: string, attachmentsHeading: string, noAttachments: string,
    linkHeading: string, footer: string)

  /** Text holding neither the `🔹` of the contact heading nor the `ž` of
      the link heading. */
  predicate Unmarked(s: string) {
    forall i | 0 <= i < |s| :: s[i] != '🔹' && s[i] != 'ž'
  }

  type Plain = s: string | Unmarked(s)
  type LacksLinkMark = s: string | forall i | 0 <= i < |s| :: s[i] != 'ž'
  type LacksContactMark = s: string | forall i | 0 <= i < |s| :: s[i] != '🔹'

  const Greeting: Plain := "Sveiki, "
  const AssignedIntroStart: Plain := ",\n\nJums priskirta "
  const AssignedIntroEnd: Plain := "pretenzija:\n"
  const AssignedIntro: Plain := AssignedIntroStart + AssignedIntroEnd
  const IdLabel: Plain := "- ID: "
  const NoteLabel: Plain := "- Rekomendacija: "
  const NoNote: Plain := "Nėra papildomų pastabų"
  const ContactHeading: LacksLinkMark := "🔹 KONTAKTINĖ INFORMACIJA\n"
  const NameLabel: Plain := "- Vardas: "
  const PhoneLabel: Plain := "- Telefonas: "
  const EmailLabel: Plain := "- El. paštas: "
  const AddressLabel: Plain := "- Adresas: "
  const AttachmentsHeading: Plain := "Prisegti dokumentai:\n"
  const NoAttachments: Plain := "- Nėra pridėtų dokumentų\n"
  const LinkHeading: LacksContactMark := "Peržiūrėti visą užduotį: "
  const FooterPlease: Plain := "Prašome išspręsti "
  const FooterProblem: Plain := "problemą ir "
  const FooterUpdate: Plain := "atnaujinti būseną "
  const FooterInSystem: Plain := "sistemoje.\n\n"
  const FooterGreeting: Plain := "Geriausios sveikatos,\n"
  const FooterTeam: Plain := "Rubineta kokybės komanda\n"
  const FooterMail: Plain := "info@rubineta.lt\n"
  const FooterPhone: Plain := "+370 612 34567"
  const Footer: Plain :=
    FooterPlease + FooterProblem + FooterUpdate + FooterInSystem + FooterGreeting + FooterTeam
    + FooterMail + FooterPhone

  /** The wording of server.js:139-167. */
  const Wording := PartnerWording(
    Greeting, AssignedIntro, IdLabel, NoteLabel, NoNote,
    ContactHeading, NameLabel, PhoneLabel, EmailLabel,
    AddressLabel, AttachmentsHeading, NoAttachments,
    LinkHeading, Footer)

  /** Each mark occurs in its own heading and in no other fixed text. */
  predicate WellMarked(w: PartnerWording) {
    && Unmarked(w.greeting) && Unmarked(w.assignedIntro) && Unmarked(w.idLabel)
    && Unmarked(w.noteLabel) && Unmarked(w.noNote) && Unmarked(w.nameLabel)
    && Unmarked(w.phoneLabel) && Unmarked(w.emailLabel) && Unmarked(w.addressLabel)
    && Unmarked(w.attachmentsHeading) && Unmarked(w.noAttachments) && Unmarked(w.footer)
    && '🔹' in w.contactHeading && 'ž' !in w.contactHeading
    && 'ž' in w.linkHeading && '🔹' !in w.linkHeading
  }

  lemma WordingWellMarked()
    ensures WellMarked(Wording)
  {
    assert ContactHeading[0] == '🔹';
    assert LinkHeading[3] == 'ž';
  }

  /** One `body += ...` of server.js:139-167. */
  datatype Piece =
    | GreetingPiece(contactPerson: Field)                      // line 139
    | IdPiece(claimId: Field)                                  // line 140
    | NotePiece(note: Field)                                   // line 141
    | ContactHeadingPiece                                      // line 145
    | NamePiece(name: Field, surname: Field)                   // line 146
    | PhonePiece(phone: Field)                                 // line 147
    | EmailPiece(email: Field)                                 // line 148
    | AddressPiece(street: Field, city: Field, postal: Field)  // line 149
    | AttachmentsHeadingPiece                                  // line 153
    | AttachmentPiece(att: Attachment)                         // line 156
    | NoAttachmentsPiece                                       // line 159
    | LinkPiece(link: string)                                  // line 164
    | FooterPiece                                              // line 167

  /** `${note || 'Nėra papildomų pastabų'}` */
  function NoteText(w: PartnerWording, note: Field): (r: string)
    ensures Truthy(note) ==> r == note.s
    ensures !Truthy(note) ==> r == w.noNote
  {
    OrElse(note, w.noNote)
  }

  /** Line 156, for one attachment. */
  function AttachmentLine(a: Attachment): string {
    "- " + Render(a.name) + ": " + Render(a.url) + "\n"
  }

  function LinkLine(w: PartnerWording, link: string): string {
    "\n" + w.linkHeading + link + "\n\n"
  }

  /** The text a piece appends. */
  function PieceText(w: PartnerWording, p: Piece): string {
    match p
    case GreetingPiece(person) => w.greeting + Render(person) + w.assignedIntro
    case IdPiece(id) => w.idLabel + Render(id) + "\n"
    case NotePiece(note) => w.noteLabel + NoteText(w, note) + "\n\n"
    case ContactHeadingPiece => w.contactHeading
    case NamePiece(name, surname) => w.nameLabel + Render(name) + " " + Render(surname) + "\n"
    case PhonePiece(phone) => w.phoneLabel + Render(phone) + "\n"
    case EmailPiece(email) => w.emailLabel + Render(email) + "\n"
    case AddressPiece(street, city, postal) =>
      w.addressLabel + Render(street) + ", " + Render(city) + ", " + Render(postal) + "\n\n"
    case AttachmentsHeadingPiece => w.attachmentsHeading
    case AttachmentPiece(a) => AttachmentLine(a)
    case NoAttachmentsPiece => w.noAttachments
    case LinkPiece(link) => LinkLine(w, link)
    case FooterPiece => w.footer
  }

  /** The texts of the pieces, in order. */
  function Texts(w: PartnerWording, pieces: seq<Piece>): (r: seq<string>)
    ensures |r| == |pieces|
  {
    if pieces == [] then []
    else Texts(w, pieces[..|pieces| - 1]) + [PieceText(w, pieces[|pieces| - 1])]
  }

  lemma {:induction false} TextsAt(w: PartnerWording, pieces: seq<Piece>, i: nat)
    requires i < |pieces|
    ensures Texts(w, pieces)[i] == PieceText(w, pieces[i])
  {
    if i < |pieces| - 1 {
      TextsAt(w, pieces[..|pieces| - 1], i);
    }
  }

  /** The text of the pieces written one after the other. */
  function Body(w: PartnerWording, pieces: seq<Piece>): string {
    Join(Texts(w, pieces))
  }

  lemma BodySnoc(w: PartnerWording, pieces: seq<Piece>, p: Piece)
    ensures Body(w, pieces + [p]) == Body(w, pieces) + PieceText(w, p)
  {
    assert (pieces + [p])[..|pieces|] == pieces;
    JoinSnoc(Texts(w, pieces), PieceText(w, p));
  }

  lemma {:induction false} BodyAppend(w: PartnerWording, a: seq<Piece>, b: seq<Piece>)
    ensures Body(w, a + b) == Body(w, a) + Body(w, b)
  {
    if b == [] {
      assert a + b == a;
    } else {
      var init, last := b[..|b| - 1], b[|b| - 1];
      assert a + b == (a + init) + [last];
      assert b == init + [last];
      BodyAppend(w, a, init);
      BodySnoc(w, a + init, last);
      BodySnoc(w, init, last);
      AppendAssoc(Body(w, a), Body(w, init), PieceText(w, last));
    }
  }

  /** The lines the `forEach` of lines 155-157 appends. */
  function AttachmentLines(atts: seq<Attachment>): (r: seq<string>)
    ensures |r| == |atts|
  {
    if atts == [] then [] else AttachmentLines(atts[..|atts| - 1]) + [AttachmentLine(atts[|atts| - 1])]
  }

  /** The pieces the `forEach` of lines 155-157 appends. */
  function AttachmentPieces(atts: seq<Attachment>): (r: seq<Piece>)
    ensures |r| == |atts|
    ensures forall i | 0 <= i < |atts| :: r[i] == AttachmentPiece(atts[i])
  {
    if atts == [] then []
    else AttachmentPieces(atts[..|atts| - 1]) + [AttachmentPiece(atts[|atts| - 1])]
  }

  /** Lines 144-150: the contact block when a customer is given. */
  function ContactPieces(customer: Option<Customer>): seq<Piece> {
    match customer
    case None => []
    case Some(c) =>
      [ ContactHeadingPiece, NamePiece(c.name, c.surname), PhonePiece(c.phone),
        EmailPiece(c.email), AddressPiece(c.street, c.city, c.postal) ]
  }

  /** Lines 153-160. */
  function AttachmentsSection(atts: seq<Attachment>): seq<Piece> {
    [AttachmentsHeadingPiece] + (if |atts| > 0 then AttachmentPieces(atts) else [NoAttachmentsPiece])
  }

  /** Lines 163-165. */
  function LinkSection(claimLink: Field): seq<Piece> {
    if Truthy(claimLink) then [LinkPiece(claimLink.s)] else []
  }

  /** Every piece of the body, in the order the handler appends them. */
  function Pieces(req: PartnerRequest, atts: seq<Attachment>): seq<Piece> {
    [GreetingPiece(req.partnerContactPerson), IdPiece(req.claimId), NotePiece(req.note)]
    + ContactPieces(req.customer) + AttachmentsSection(atts)
    + LinkSection(req.claimLink) + [FooterPiece]
  }

  /** The whole body; `None` when `attachments` is `null`, where reading
      `attachments.length` throws. */
  function PartnerText(w: PartnerWording, req: PartnerRequest): Option<string> {
    match req.attachments
    case None => None
    case Some(atts) => Some(Body(w, Pieces(req, atts)))
  }

  /** Line 169. */
  function PartnerSubject(claimId: Field): string {
    "Pretenzija " + Render(claimId) + " – perduota jūsų aptarnavimui"
  }

  /** The subject names the claim. */
  lemma PartnerSubjectQuotesId(claimId: Field)
    ensures Contains(PartnerSubject(claimId), Render(claimId))
  {
    ContainsInfix("Pretenzija ", Render(claimId), " – perduota jūsų aptarnavimui");
  }

  /** The body built as server.js:139-167 builds it, one `body +=` at a
      time; `None` where the handler throws. */
  method ComposePartnerText(w: PartnerWording, req: PartnerRequest) returns (text: Option<string>)
    ensures text == PartnerText(w, req)
  {
    var body;
    ghost var pieces;
    body, pieces := AppendOpening(w, req);
    body, pieces := AppendContact(w, body, pieces, req.customer);
    if req.attachments.None? {
      return None;
    }
    var atts := req.attachments.value;
    body, pieces := AppendAttachments(w, body, pieces, atts);
    body, pieces := AppendLink(w, body, pieces, req.claimLink);
    body, pieces := Append(w, body, pieces, FooterPiece);
    text := Some(body);
  }

  /** Lines 139-141. */
  method AppendOpening(w: PartnerWording, req: PartnerRequest) returns (body: string, ghost pieces: seq<Piece>)
    ensures pieces == [GreetingPiece(req.partnerContactPerson), IdPiece(req.claimId), NotePiece(req.note)]
    ensures body == Body(w, pieces)
    ensures body == PieceText(w, GreetingPiece(req.partnerContactPerson)) + PieceText(w, IdPiece(req.claimId))
      + PieceText(w, NotePiece(req.note))
  {
    body, pieces := Append(w, "", [], GreetingPiece(req.partnerContactPerson));
    body, pieces := Append(w, body, pieces, IdPiece(req.claimId));
    body, pieces := Append(w, body, pieces, NotePiece(req.note));
  }

  /** Lines 144-150. */
  method AppendContact(w: PartnerWording, body: string, ghost pieces: seq<Piece>, customer: Option<Customer>)
    returns (body': string, ghost pieces': seq<Piece>)
    requires body == Body(w, pieces)
    ensures pieces' == pieces + ContactPieces(customer)
    ensures body' == Body(w, pieces')
    ensures body' == body + Body(w, ContactPieces(customer))
  {
    body', pieces' := body, pieces;
    if customer.Some? {
      var c := customer.value;
      body', pieces' := Append(w, body', pieces', ContactHeadingPiece);
      body', pieces' := Append(w, body', pieces', NamePiece(c.name, c.surname));
      body', pieces' := Append(w, body', pieces', PhonePiece(c.phone));
      body', pieces' := Append(w, body', pieces', EmailPiece(c.email));
      body', pieces' := Append(w, body', pieces', AddressPiece(c.street, c.city, c.postal));
    }
    BodyAppend(w, pieces, ContactPieces(customer));
  }

  /** Lines 153-160. */
  method AppendAttachments(w: PartnerWording, body: string, ghost pieces: seq<Piece>, atts: seq<Attachment>)
    returns (body': string, ghost pieces': seq<Piece>)
    requires body == Body(w, pieces)
    ensures pieces' == pieces + AttachmentsSection(atts)
    ensures body' == Body(w, pieces')
    ensures body' == body + Body(w, AttachmentsSection(atts))
  {
    body', pieces' := Append(w, body, pieces, AttachmentsHeadingPiece);
    if |atts| > 0 {
      ghost var lines := AttachmentPieces(atts);
      body' := AppendAttachmentLines(body', atts);
      LinesAreAttachmentPieces(w, atts);
      BodyAppend(w, pieces', lines);
      SectionOfLines(pieces, atts);
      pieces' := pieces' + lines;
    } else {
      body', pieces' := Append(w, body', pieces', NoAttachmentsPiece);
    }
    BodyAppend(w, pieces, AttachmentsSection(atts));
  }

  lemma SectionOfLines(pieces: seq<Piece>, atts: seq<Attachment>)
    requires |atts| > 0
    ensures pieces + [AttachmentsHeadingPiece] + AttachmentPieces(atts) == pieces + AttachmentsSection(atts)
  {
    SeqAssoc(pieces, [AttachmentsHeadingPiece], AttachmentPieces(atts));
  }

  /** The `forEach` of lines 155-157: one line per attachment, in order. */
  method AppendAttachmentLines(body: string, atts: seq<Attachment>) returns (out: string)
    ensures out == body + Join(AttachmentLines(atts))
  {
    out := body;
    for i := 0 to |atts|
      invariant out == body + Join(AttachmentLines(atts[..i]))
    {
      assert atts[..i + 1][..i] == atts[..i];
      JoinSnoc(AttachmentLines(atts[..i]), AttachmentLine(atts[i]));
      AppendAssoc(body, Join(AttachmentLines(atts[..i])), AttachmentLine(atts[i]));
      out := out + ("- " + Render(atts[i].name) + ": " + Render(atts[i].url) + "\n");
    }
    assert atts[..|atts|] == atts;
  }

  lemma {:induction false} LinesAreAttachmentPieces(w: PartnerWording, atts: seq<Attachment>)
    ensures Join(AttachmentLines(atts)) == Body(w, AttachmentPieces(atts))
  {
    if atts != [] {
      var init, last := atts[..|atts| - 1], atts[|atts| - 1];
      LinesAreAttachmentPieces(w, init);
      JoinSnoc(AttachmentLines(init), AttachmentLine(last));
      BodySnoc(w, AttachmentPieces(init), AttachmentPiece(last));
    }
  }

  /** Lines 163-165. */
  method AppendLink(w: PartnerWording, body: string, ghost pieces: seq<Piece>, claimLink: Field)
    returns (body': string, ghost pieces': seq<Piece>)
    requires body == Body(w, pieces)
    ensures pieces' == pieces + LinkSection(claimLink)
    ensures body' == Body(w, pieces')
    ensures body' == body + Body(w, LinkSection(claimLink))
  {
    body', pieces' := body, pieces;
    if Truthy(claimLink) {
      body', pieces' := Append(w, body, pieces, LinkPiece(claimLink.s));
    }
    BodyAppend(w, pieces, LinkSection(claimLink));
  }

  /** One `body += ...`: the piece's text goes at the end of the body. */
  method Append(w: PartnerWording, body: string, ghost pieces: seq<Piece>, p: Piece)
    returns (body': string, ghost pieces': seq<Piece>)
    requires body == Body(w, pieces)
    ensures pieces' == pieces + [p]
    ensures body' == body + PieceText(w, p) && body' == Body(w, pieces')
  {
    body' := body + PieceText(w, p);
    pieces' := pieces + [p];
    BodySnoc(w, pieces, p);
  }

  // ---------------------------------------------------------------------
  // Where the pieces end up in the body

  /** Each piece's text occurs in the body, between the texts of the pieces
      before it and those of the pieces after it. */
  lemma BodyAt(w: PartnerWording, pieces: seq<Piece>, i: nat)
    requires i < |pieces|
    ensures Body(w, pieces) == Join(Texts(w, pieces)[..i]) + PieceText(w, pieces[i]) + Join(Texts(w, pieces)[i + 1..])
    ensures Contains(Body(w, pieces), PieceText(w, pieces[i]))
  {
    TextsAt(w, pieces, i);
    JoinAt(Texts(w, pieces), i);
    JoinHasPiece(Texts(w, pieces), i);
  }

  /** The three opening pieces come first, the footer last. */
  lemma OpeningAndFooter(req: PartnerRequest, atts: seq<Attachment>)
    ensures var p := Pieces(req, atts);
      && |p| >= 6
      && p[..3] == [GreetingPiece(req.partnerContactPerson), IdPiece(req.claimId), NotePiece(req.note)]
      && p[|p| - 1] == FooterPiece
  {
  }

  /** The attachments section is the heading followed by exactly one piece
      per attachment, in input order, or by exactly one placeholder piece
      when there is none. */
  lemma AttachmentsSectionShape(atts: seq<Attachment>)
    ensures var a := AttachmentsSection(atts);
      && a[0] == AttachmentsHeadingPiece
      && (atts == [] ==> a == [AttachmentsHeadingPiece, NoAttachmentsPiece])
      && (atts != [] ==> |a| == 1 + |atts| && forall i | 0 <= i < |atts| :: a[1 + i] == AttachmentPiece(atts[i]))
  {
  }

  /** The attachments section follows the opening and the contact block,
      and the link line or the footer follows it. */
  lemma AttachmentsPlace(req: PartnerRequest, atts: seq<Attachment>)
    ensures var p, k, a := Pieces(req, atts), 3 + |ContactPieces(req.customer)|, AttachmentsSection(atts);
      && k + |a| < |p|
      && p[k..k + |a|] == a
      && p[k + |a|] == (if Truthy(req.claimLink) then LinkPiece(req.claimLink.s) else FooterPiece)
  {
    var front := [GreetingPiece(req.partnerContactPerson), IdPiece(req.claimId), NotePiece(req.note)]
      + ContactPieces(req.customer);
    var rest := LinkSection(req.claimLink) + [FooterPiece];
    var a := AttachmentsSection(atts);
    assert Pieces(req, atts) == front + a + rest;
  }

  /** The text of lines 153-160: the heading, then one line per attachment
      or, with none, the placeholder line alone. */
  lemma AttachmentsText(w: PartnerWording, atts: seq<Attachment>)
    ensures Body(w, AttachmentsSection(atts))
      == w.attachmentsHeading + (if |atts| > 0 then Join(AttachmentLines(atts)) else w.noAttachments)
  {
    var rest := if |atts| > 0 then AttachmentPieces(atts) else [NoAttachmentsPiece];
    BodyAppend(w, [AttachmentsHeadingPiece], rest);
    BodySnoc(w, [], AttachmentsHeadingPiece);
    assert Body(w, [AttachmentsHeadingPiece]) == w.attachmentsHeading;
    if |atts| > 0 {
      LinesAreAttachmentPieces(w, atts);
    } else {
      BodySnoc(w, [], NoAttachmentsPiece);
      assert [] + [NoAttachmentsPiece] == rest;
    }
  }

  /** That text is written in the body as one piece of text. */
  lemma AttachmentsTextInBody(w: PartnerWording, req: PartnerRequest, atts: seq<Attachment>)
    ensures Contains(Body(w, Pieces(req, atts)), Body(w, AttachmentsSection(atts)))
  {
    var front := [GreetingPiece(req.partnerContactPerson), IdPiece(req.claimId), NotePiece(req.note)]
      + ContactPieces(req.customer);
    var a := AttachmentsSection(atts);
    var rest := LinkSection(req.claimLink) + [FooterPiece];
    assert Pieces(req, atts) == front + a + rest;
    BodyAppend(w, front + a, rest);
    BodyAppend(w, front, a);
    ContainsInfix(Body(w, front), Body(w, a), Body(w, rest));
  }

  /** Two pieces' texts occur in the body in the order of the pieces. */
  lemma BodyOrder(w: PartnerWording, pieces: seq<Piece>, m: nat, n: nat)
    requires m < n < |pieces|
    ensures var t := Texts(w, pieces);
      Body(w, pieces) == Join(t[..m]) + PieceText(w, pieces[m]) + Join(t[m + 1..n]) + PieceText(w, pieces[n]) + Join(t[n + 1..])
  {
    TextsAt(w, pieces, m);
    TextsAt(w, pieces, n);
    JoinAtBoth(Texts(w, pieces), m, n);
  }

  /** Attachment i is piece 4 + i after the contact block. */
  lemma AttachmentPieceAt(req: PartnerRequest, atts: seq<Attachment>, i: nat)
    requires i < |atts|
    ensures var p, m := Pieces(req, atts), 4 + |ContactPieces(req.customer)| + i;
      m < |p| && p[m] == AttachmentPiece(atts[i])
  {
    var front := [GreetingPiece(req.partnerContactPerson), IdPiece(req.claimId), NotePiece(req.note)]
      + ContactPieces(req.customer);
    var a := [AttachmentsHeadingPiece] + AttachmentPieces(atts);
    var rest := LinkSection(req.claimLink) + [FooterPiece];
    assert Pieces(req, atts) == front + a + rest;
    assert a[1 + i] == AttachmentPiece(atts[i]);
  }

  /** The texts of two attachment pieces occur in a body in the order of the pieces. */
  lemma AttachmentPiecesInOrder(w: PartnerWording, p: seq<Piece>, m: nat, n: nat, x: Attachment, y: Attachment)
    requires m < n < |p| && p[m] == AttachmentPiece(x) && p[n] == AttachmentPiece(y)
    ensures exists before: string, between: string, after: string ::
      Body(w, p) == before + AttachmentLine(x) + between + AttachmentLine(y) + after
  {
    BodyOrder(w, p, m, n);
    var t := Texts(w, p);
    var before, between, after := Join(t[..m]), Join(t[m + 1..n]), Join(t[n + 1..]);
    assert Body(w, p) == before + AttachmentLine(x) + between + AttachmentLine(y) + after;
  }

  /** Line i is written before line j whenever attachment i comes first. */
  lemma AttachmentLinesInOrder(w: PartnerWording, req: PartnerRequest, atts: seq<Attachment>, i: nat, j: nat)
    requires i < j < |atts|
    ensures exists before: string, between: string, after: string ::
      Body(w, Pieces(req, atts)) == before + AttachmentLine(atts[i]) + between + AttachmentLine(atts[j]) + after
  {
    AttachmentPieceAt(req, atts, i);
    AttachmentPieceAt(req, atts, j);
    var k := 4 + |ContactPieces(req.customer)|;
    AttachmentPiecesInOrder(w, Pieces(req, atts), k + i, k + j, atts[i], atts[j]);
  }

  /** An attachment whose name and URL have no line break. */
  predicate SingleLine(a: Attachment) {
    '\n' !in Render(a.name) && '\n' !in Render(a.url)
  }

  lemma LineCount(a: Attachment)
    requires SingleLine(a)
    ensures Count(AttachmentLine(a), '\n') == 1
  {
    var name, url := Render(a.name), Render(a.url);
    CountAppend("- " + name + ": " + url, "\n", '\n');
    CountAppend("- " + name + ": ", url, '\n');
    CountAppend("- " + name, ": ", '\n');
    CountAppend("- ", name, '\n');
    assert Count("\n", '\n') == 1;
  }

  /** Exactly one line per attachment: when no name or URL breaks a line,
      the text the loop appends holds as many line breaks as there are
      attachments. */
  lemma {:induction false} AttachmentLinesCount(atts: seq<Attachment>)
    requires forall i | 0 <= i < |atts| :: SingleLine(atts[i])
    ensures Count(Join(AttachmentLines(atts)), '\n') == |atts|
  {
    if atts != [] {
      var init, a := atts[..|atts| - 1], atts[|atts| - 1];
      AttachmentLinesCount(init);
      LineCount(a);
      JoinSnoc(AttachmentLines(init), AttachmentLine(a));
      CountAppend(Join(AttachmentLines(init)), AttachmentLine(a), '\n');
    }
  }

  // ---------------------------------------------------------------------
  // The optional parts

  /** The contact block is written exactly when a customer is given, and
      then whole and right after the opening. */
  lemma ContactBlockIffCustomer(req: PartnerRequest, atts: seq<Attachment>)
    ensures ContactHeadingPiece in Pieces(req, atts) <==> req.customer.Some?
    ensures req.customer.Some? ==>
      var c := req.customer.value;
      Pieces(req, atts)[3..8] == [ContactHeadingPiece, NamePiece(c.name, c.surname), PhonePiece(c.phone),
        EmailPiece(c.email), AddressPiece(c.street, c.city, c.postal)]
  {
    var p := Pieces(req, atts);
    var o := [GreetingPiece(req.partnerContactPerson), IdPiece(req.claimId), NotePiece(req.note)];
    var c, a, rest := ContactPieces(req.customer), AttachmentsSection(atts), LinkSection(req.claimLink) + [FooterPiece];
    assert p == o + c + (a + rest);
    if req.customer.None? {
      assert forall x | x in a :: x.AttachmentsHeadingPiece? || x.AttachmentPiece? || x.NoAttachmentsPiece?;
    } else {
      assert p[3] == ContactHeadingPiece;
    }
  }

  /** The link line is written exactly when `claimLink` is truthy, and then
      it carries the link. */
  lemma LinkLineIffClaimLink(req: PartnerRequest, atts: seq<Attachment>)
    ensures (exists x | x in Pieces(req, atts) :: x.LinkPiece?) <==> Truthy(req.claimLink)
    ensures Truthy(req.claimLink) ==> LinkPiece(req.claimLink.s) in Pieces(req, atts)
  {
    var o := [GreetingPiece(req.partnerContactPerson), IdPiece(req.claimId), NotePiece(req.note)];
    var c, a, l := ContactPieces(req.customer), AttachmentsSection(atts), LinkSection(req.claimLink);
    assert Pieces(req, atts) == o + c + a + l + [FooterPiece];
    assert forall x | x in o + c + a + [FooterPiece] :: !x.LinkPiece?;
    if Truthy(req.claimLink) {
      var x := LinkPiece(req.claimLink.s);
      assert x in l;
      assert x in Pieces(req, atts) && x.LinkPiece?;
    } else {
      assert Pieces(req, atts) == o + c + a + [FooterPiece];
    }
  }

  /** A missing or empty note is written as the fixed "no remarks" text. */
  lemma RecommendationLine(w: PartnerWording, req: PartnerRequest, atts: seq<Attachment>)
    ensures Truthy(req.note) ==> Contains(Body(w, Pieces(req, atts)), w.noteLabel + req.note.s + "\n")
    ensures !Truthy(req.note) ==> Contains(Body(w, Pieces(req, atts)), w.noteLabel + w.noNote + "\n")
  {
    NoteLineInBody(w, req, atts);
  }

  lemma NoteLineInBody(w: PartnerWording, req: PartnerRequest, atts: seq<Attachment>)
    ensures Contains(Body(w, Pieces(req, atts)), w.noteLabel + NoteText(w, req.note) + "\n")
  {
    var p := Pieces(req, atts);
    var line := w.noteLabel + NoteText(w, req.note) + "\n";
    OpeningAndFooter(req, atts);
    assert p[2] == p[..3][2] == NotePiece(req.note);
    TextsAt(w, p, 2);
    ContainsInfix("", line, "\n");
    assert "" + line + "\n" == Texts(w, p)[2];
    JoinHas(Texts(w, p), 2, line);
  }

  // ---------------------------------------------------------------------
  // The optional sections, read off the text. The contact heading carries
  // `🔹` and the link heading `ž`; as long as no request field carries the
  // same mark, the heading is in the mail exactly when its section is.

  predicate FieldLacks(f: Field, c: char) {
    c !in Render(f)
  }

  predicate CustomerLacks(cu: Customer, c: char) {
    && FieldLacks(cu.name, c) && FieldLacks(cu.surname, c) && FieldLacks(cu.phone, c)
    && FieldLacks(cu.email, c) && FieldLacks(cu.street, c) && FieldLacks(cu.city, c)
    && FieldLacks(cu.postal, c)
  }

  /** No field the handler interpolates holds `c`. */
  predicate RequestLacks(req: PartnerRequest, atts: seq<Attachment>, c: char) {
    && FieldLacks(req.partnerContactPerson, c) && FieldLacks(req.claimId, c)
    && FieldLacks(req.note, c) && FieldLacks(req.claimLink, c)
    && (req.customer.Some? ==> CustomerLacks(req.customer.value, c))
    && forall a | a in atts :: FieldLacks(a.name, c) && FieldLacks(a.url, c)
  }

  /** The request data a piece interpolates lacks `c`. */
  predicate PieceLacks(p: Piece, c: char) {
    match p
    case GreetingPiece(person) => FieldLacks(person, c)
    case IdPiece(id) => FieldLacks(id, c)
    case NotePiece(note) => FieldLacks(note, c)
    case NamePiece(name, surname) => FieldLacks(name, c) && FieldLacks(surname, c)
    case PhonePiece(phone) => FieldLacks(phone, c)
    case EmailPiece(email) => FieldLacks(email, c)
    case AddressPiece(street, city, postal) => FieldLacks(street, c) && FieldLacks(city, c) && FieldLacks(postal, c)
    case AttachmentPiece(a) => FieldLacks(a.name, c) && FieldLacks(a.url, c)
    case LinkPiece(link) => c !in link
    case _ => true
  }

  lemma UnmarkedLacks(s: string)
    requires Unmarked(s)
    ensures '🔹' !in s && 'ž' !in s
  {
  }

  predicate AllLack(pieces: seq<Piece>, c: char) {
    forall p | p in pieces :: PieceLacks(p, c)
  }

  lemma AttachmentsLack(atts: seq<Attachment>, c: char)
    requires forall a | a in atts :: FieldLacks(a.name, c) && FieldLacks(a.url, c)
    ensures AllLack(AttachmentsSection(atts), c)
  {
    forall p | p in AttachmentPieces(atts) ensures PieceLacks(p, c) {
      var i :| 0 <= i < |atts| && AttachmentPieces(atts)[i] == p;
      assert atts[i] in atts;
    }
  }

  /** Every piece of a request without `c` in its fields lacks `c` in its data. */
  lemma PiecesLack(req: PartnerRequest, atts: seq<Attachment>, c: char)
    requires RequestLacks(req, atts, c)
    ensures AllLack(Pieces(req, atts), c)
  {
    var o := [GreetingPiece(req.partnerContactPerson), IdPiece(req.claimId), NotePiece(req.note)];
    var cp, a, l := ContactPieces(req.customer), AttachmentsSection(atts), LinkSection(req.claimLink);
    ContactLacks(req.customer, c);
    AttachmentsLack(atts, c);
    PartsLack(o, cp, a, l, c);
  }

  lemma ContactLacks(customer: Option<Customer>, c: char)
    requires customer.Some? ==> CustomerLacks(customer.value, c)
    ensures AllLack(ContactPieces(customer), c)
  {
  }

  lemma PartsLack(o: seq<Piece>, cp: seq<Piece>, a: seq<Piece>, l: seq<Piece>, c: char)
    requires AllLack(o, c) && AllLack(cp, c) && AllLack(a, c) && AllLack(l, c)
    ensures AllLack(o + cp + a + l + [FooterPiece], c)
  {
    AllLackConcat(o, cp, c);
    AllLackConcat(o + cp, a, c);
    AllLackConcat(o + cp + a, l, c);
    AllLackConcat(o + cp + a + l, [FooterPiece], c);
  }

  lemma AllLackConcat(front: seq<Piece>, back: seq<Piece>, c: char)
    requires AllLack(front, c) && AllLack(back, c)
    ensures AllLack(front + back, c)
  {
  }

  /** A piece's text holds a mark only if its data does or it is the
      heading that carries the mark. */
  lemma TextLacks(w: PartnerWording, p: Piece, c: char)
    requires WellMarked(w) && PieceLacks(p, c)
    requires (c == '🔹' && !p.ContactHeadingPiece?) || (c == 'ž' && !p.LinkPiece?)
    ensures c !in PieceText(w, p)
  {
    UnmarkedLacks(w.greeting);
    UnmarkedLacks(w.assignedIntro);
    UnmarkedLacks(w.idLabel);
    UnmarkedLacks(w.noteLabel);
    UnmarkedLacks(w.noNote);
    UnmarkedLacks(w.nameLabel);
    UnmarkedLacks(w.phoneLabel);
    UnmarkedLacks(w.emailLabel);
    UnmarkedLacks(w.addressLabel);
    UnmarkedLacks(w.attachmentsHeading);
    UnmarkedLacks(w.noAttachments);
    UnmarkedLacks(w.footer);
  }

  /** A body whose every piece lacks `c` in its text lacks `c`. */
  lemma BodyLacks(w: PartnerWording, pieces: seq<Piece>, c: char)
    requires forall p | p in pieces :: c !in PieceText(w, p)
    ensures c !in Body(w, pieces)
  {
    forall k | 0 <= k < |Texts(w, pieces)| ensures c !in Texts(w, pieces)[k] {
      TextsAt(w, pieces, k);
    }
    JoinLacks(Texts(w, pieces), c);
  }

  /** Lines 144-150 read off the text: the contact heading is written
      exactly when a customer is given. */
  lemma ContactHeadingIffCustomer(w: PartnerWording, req: PartnerRequest, atts: seq<Attachment>)
    requires WellMarked(w) && RequestLacks(req, atts, '🔹')
    ensures Contains(Body(w, Pieces(req, atts)), w.contactHeading) <==> req.customer.Some?
  {
    var p := Pieces(req, atts);
    ContactBlockIffCustomer(req, atts);
    if req.customer.Some? {
      assert p[3] == p[3..8][0] == ContactHeadingPiece;
      BodyAt(w, p, 3);
    } else {
      PiecesLack(req, atts, '🔹');
      forall x | x in p ensures '🔹' !in PieceText(w, x) {
        TextLacks(w, x, '🔹');
      }
      BodyLacks(w, p, '🔹');
      if Contains(Body(w, p), w.contactHeading) {
        ContainsChar(Body(w, p), w.contactHeading, '🔹');
      }
    }
  }

  lemma LinkLineHolds(w: PartnerWording, link: string)
    ensures Contains(LinkLine(w, link), w.linkHeading + link)
    ensures Contains(LinkLine(w, link), w.linkHeading)
  {
    AppendAssoc("\n", w.linkHeading, link);
    ContainsInfix("\n", w.linkHeading + link, "\n\n");
    AppendAssoc("\n" + w.linkHeading, link, "\n\n");
    ContainsInfix("\n", w.linkHeading, link + "\n\n");
  }

  /** Lines 163-165 read off the text: with a truthy `claimLink` the link
      heading is written, followed by the link. */
  lemma LinkHeadingWithClaimLink(w: PartnerWording, req: PartnerRequest, atts: seq<Attachment>)
    requires Truthy(req.claimLink)
    ensures Contains(Body(w, Pieces(req, atts)), w.linkHeading + req.claimLink.s)
    ensures Contains(Body(w, Pieces(req, atts)), w.linkHeading)
  {
    var p, link := Pieces(req, atts), req.claimLink.s;
    AttachmentsPlace(req, atts);
    var k := 3 + |ContactPieces(req.customer)| + |AttachmentsSection(atts)|;
    BodyAt(w, p, k);
    LinkLineHolds(w, link);
    ContainsWithin(Join(Texts(w, p)[..k]), LinkLine(w, link), Join(Texts(w, p)[k + 1..]), w.linkHeading + link);
    ContainsWithin(Join(Texts(w, p)[..k]), LinkLine(w, link), Join(Texts(w, p)[k + 1..]), w.linkHeading);
  }

  /** Without a truthy `claimLink` the link heading is nowhere in the mail. */
  lemma NoLinkHeadingWithoutClaimLink(w: PartnerWording, req: PartnerRequest, atts: seq<Attachment>)
    requires WellMarked(w) && RequestLacks(req, atts, 'ž') && !Truthy(req.claimLink)
    ensures !Contains(Body(w, Pieces(req, atts)), w.linkHeading)
  {
    var p := Pieces(req, atts);
    LinkLineIffClaimLink(req, atts);
    PiecesLack(req, atts, 'ž');
    forall x | x in p ensures 'ž' !in PieceText(w, x) {
      TextLacks(w, x, 'ž');
    }
    BodyLacks(w, p, 'ž');
    if Contains(Body(w, p), w.linkHeading) {
      ContainsChar(Body(w, p), w.linkHeading, 'ž');
    }
  }
}
