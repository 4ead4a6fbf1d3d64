/**
  Template selection of the `/send-confirmation` (server.js:105-124) and
  `/notify-status-change` (server.js:245-262) routes: an object literal of
  templates indexed by a request field, with a fallback.
 */
module Templates {
  import opened Values

  datatype Template = Template(subject: string, body: string)

  /** What `obj[key]` finds on an object literal with own keys `keys`: an
      own property, a member every object inherits from `Object.prototype`,
      or nothing (`undefined`). Whatever is found is truthy. */
  datatype Member = Own | Inherited | Absent

  /** Names every plain JavaScript object inherits from `Object.prototype`. */
  const InheritedNames: set<string> := {
    "constructor", "hasOwnProperty", "isPrototypeOf", "propertyIsEnumerable",
    "toLocaleString", "toString", "valueOf", "__proto__",
    "__defineGetter__", "__defineSetter__", "__lookupGetter__", "__lookupSetter__"
  }

  function Find(keys: set<string>, key: string): (r: Member)
    ensures r.Own? <==> key in keys
    ensures r.Absent? <==> key !in keys && key !in InheritedNames
  {
    if key in keys then Own
    else if key in InheritedNames then Inherited
    else Absent
  }

  /** `obj[f]` converts the field to a string as a template literal does
      (`Render`), so an absent or null field is looked up as "undefined" or
      "null", neither of which any of the tables has. */
  lemma MissingFieldIsNoKey(f: Field)
    requires !f.Str?
    ensures Render(f) !in ConfirmationLanguages && Render(f) !in StatusKeys && Render(f) !in InheritedNames
  {
    assert Render(f)[0] == 'u' || Render(f)[0] == 'n';
  }

  // ---------------------------------------------------------------------
  // /send-confirmation

  /** Own keys of the `templates` object of /send-confirmation. */
  const ConfirmationLanguages: set<string> := {"lt", "en"}

  /** Fixed wording of a confirmation. It never contains `?`, so every `?`
      in a confirmation comes from the login link or from the claim ID. */
  type Prose = s: string | '?' !in s

  /** The fixed text around the interpolated claim ID in one language. */
  datatype Wording = Wording(
    subjectStart: string, subjectEnd: string,
    opening: Prose, accepted: Prose, loginIntro: string, idIntro: Prose, closing: Prose)

  // The wordings, one line piece at a time.
  const LtAccepted: Prose := " sėkmingai priimta.\n"
  const LtWithin: Prose := "Atsakysime per 24 valandas.\n"
  const LtInquire: Prose := "Informuojame, kad galite pasiteirauti"
  const LtById: Prose := " apie būseną pateikdami šį "
  const LtClosing: Prose := "\n\nPagarbiai,\nRubineta kokybės komanda"
  const EnAccepted: Prose := " has been successfully accepted.\n"
  const EnWithin: Prose := "We will respond within 24 hours.\n"
  const EnInquire: Prose := "You can inquire about the status"
  const EnById: Prose := " by providing this "
  const EnClosing: Prose := "\n\nBest regards,\nRubineta quality team"

  const Lithuanian := Wording(
    "Pretenzija #", " priimta",
    "Sveiki,\n\nJūsų pretenzija #",
    LtAccepted + LtWithin,
    "Prisijunkite į savo kabinetą, kad stebėtumėte būseną:\n",
    LtInquire + LtById + "ID: ",
    LtClosing)

  const English := Wording(
    "Claim #", " accepted",
    "Hello,\n\nYour claim #",
    EnAccepted + EnWithin,
    "Log in to your account to track the status:\n",
    EnInquire + EnById + "ID: ",
    EnClosing)

  function WordingOf(lang: string): Wording
    requires lang in ConfirmationLanguages
  {
    if lang == "lt" then Lithuanian else English
  }

  function LoginLink(claimId: string): string {
    "https://pretenzijos-sistema.onrender.com/login.html?claim=" + claimId
  }

  /** One entry of the `templates` object: the body either links to the
      customer area (registered customer) or quotes the ID to ask about. */
  function ConfirmationTemplate(w: Wording, claimId: string, isRegistered: bool): Template {
    Template(
      w.subjectStart + claimId + w.subjectEnd,
      w.opening + claimId + w.accepted
      + (if isRegistered then w.loginIntro + LoginLink(claimId) else w.idIntro + claimId)
      + w.closing)
  }

  /** The language whose template is used: the requested one when the
      table has it as an own key, `lt` otherwise (absent included). */
  function EffectiveLanguage(language: Field): (lang: string)
    ensures lang in ConfirmationLanguages
    ensures language.Str? && language.s in ConfirmationLanguages ==> lang == language.s
    ensures !(language.Str? && language.s in ConfirmationLanguages) ==> lang == "lt"
  {
    var requested := if language.Undefined? then "lt" else Render(language);
    if Find(ConfirmationLanguages, requested).Own? then requested else "lt"
  }

  function Confirmation(claimId: Field, language: Field, isRegistered: bool): Template {
    ConfirmationTemplate(WordingOf(EffectiveLanguage(language)), Render(claimId), isRegistered)
  }

  /** Any language other than `lt` and `en` (absent, null, misspelt) gets
      exactly the Lithuanian message. */
  lemma UnsupportedLanguageIsLithuanian(claimId: Field, language: Field, isRegistered: bool)
    requires !(language.Str? && language.s in ConfirmationLanguages)
    ensures Confirmation(claimId, language, isRegistered) == Confirmation(claimId, Str("lt"), isRegistered)
    ensures Confirmation(claimId, language, isRegistered) == Confirmation(claimId, Undefined, isRegistered)
    ensures Confirmation(claimId, language, isRegistered).subject == "Pretenzija #" + Render(claimId) + " priimta"
  {
  }

  /** In either wording the ID is introduced by the label `ID: `. */
  lemma IdLabelled(lang: string)
    requires lang in ConfirmationLanguages
    ensures exists intro: Prose :: WordingOf(lang).idIntro == intro + "ID: "
  {
    if lang == "lt" {
      assert WordingOf(lang).idIntro == (LtInquire + LtById) + "ID: ";
    } else {
      assert WordingOf(lang).idIntro == (EnInquire + EnById) + "ID: ";
    }
  }

  lemma LinkWhenRegistered(w: Wording, id: string)
    ensures Contains(ConfirmationTemplate(w, id, true).body, LoginLink(id))
  {
    assert ConfirmationTemplate(w, id, true).body == (w.opening + id + w.accepted + w.loginIntro) + LoginLink(id) + w.closing;
    ContainsInfix(w.opening + id + w.accepted + w.loginIntro, LoginLink(id), w.closing);
  }

  lemma IdWhenUnregistered(w: Wording, intro: Prose, id: string)
    requires w.idIntro == intro + "ID: "
    ensures Contains(ConfirmationTemplate(w, id, false).body, "ID: " + id)
    ensures '?' !in id ==> !Contains(ConfirmationTemplate(w, id, false).body, LoginLink(id))
  {
    var body := ConfirmationTemplate(w, id, false).body;
    assert body == (w.opening + id + w.accepted + intro) + ("ID: " + id) + w.closing;
    ContainsInfix(w.opening + id + w.accepted + intro, "ID: " + id, w.closing);
    if '?' !in id {
      assert '?' !in body;
      assert LoginLink(id)[51] == '?';
      if Contains(body, LoginLink(id)) {
        ContainsChar(body, LoginLink(id), '?');
      }
    }
  }

  /** A registered customer is sent the login link for the claim. */
  lemma RegisteredGetsLoginLink(claimId: Field, language: Field)
    ensures Contains(Confirmation(claimId, language, true).body, LoginLink(Render(claimId)))
  {
    LinkWhenRegistered(WordingOf(EffectiveLanguage(language)), Render(claimId));
  }

  /** An unregistered customer is given the claim ID to quote instead; as
      long as the ID itself has no `?`, no login link appears. */
  lemma UnregisteredGetsClaimId(claimId: Field, language: Field)
    ensures Contains(Confirmation(claimId, language, false).body, "ID: " + Render(claimId))
    ensures '?' !in Render(claimId) ==> !Contains(Confirmation(claimId, language, false).body, LoginLink(Render(claimId)))
  {
    var lang := EffectiveLanguage(language);
    IdLabelled(lang);
    var intro: Prose :| WordingOf(lang).idIntro == intro + "ID: ";
    IdWhenUnregistered(WordingOf(lang), intro, Render(claimId));
  }

  /** Both subjects quote the claim ID after `#`. */
  lemma ConfirmationSubjectQuotesId(claimId: Field, language: Field, isRegistered: bool)
    ensures Contains(Confirmation(claimId, language, isRegistered).subject, "#" + Render(claimId))
  {
    var id := Render(claimId);
    if EffectiveLanguage(language) == "lt" {
      assert Confirmation(claimId, language, isRegistered).subject == "Pretenzija " + ("#" + id) + " priimta";
      ContainsInfix("Pretenzija ", "#" + id, " priimta");
    } else {
      assert Confirmation(claimId, language, isRegistered).subject == "Claim " + ("#" + id) + " accepted";
      ContainsInfix("Claim ", "#" + id, " accepted");
    }
  }

  // ---------------------------------------------------------------------
  // /notify-status-change

  /** Own keys of the `templates` object of /notify-status-change. */
  const StatusKeys: set<string> := {"Perduota servisui", "Išspręsta"}

  const Signature := "\n\nPagarbiai,\nRubineta kokybės komanda"

  /** One entry of that object. */
  function StatusTemplate(status: string, claimId: string, customerName: string): Template
    requires status in StatusKeys
  {
    if status == "Perduota servisui" then
      Template(
        "Pretenzija #" + claimId + " – perduota servisui",
        "Sveiki, " + customerName + ",\n\nJūsų pretenzija #" + claimId
        + " buvo perduota serviso partneriui.\nMeistras susisieks su jumis artimiausiu metu." + Signature)
    else
      Template(
        "✅ Pretenzija #" + claimId + " išspręsta",
        "Sveiki, " + customerName + ",\n\nJūsų pretenzija #" + claimId
        + " yra išspręsta.\nDėkojame, kad pasirinkote Rubineta." + Signature)
  }

  /** The fallback of `templates[status] || {...}`, which names the status. */
  function GenericStatusTemplate(claimId: string, customerName: string, status: string): Template {
    Template(
      "Pretenzija #" + claimId + " – būsena pasikeitė",
      "Sveiki, " + customerName + ",\n\nJūsų pretenzijos #" + claimId + " "
      + ("būsena pasikeitė į: " + status + ".") + Signature)
  }

  /** The template chosen for a status change (own keys of the table only). */
  function StatusChange(claimId: Field, customerName: Field, status: Field): Template {
    if Find(StatusKeys, Render(status)).Own? then StatusTemplate(Render(status), Render(claimId), Render(customerName))
    else GenericStatusTemplate(Render(claimId), Render(customerName), Render(status))
  }

  /** The two known statuses get their fixed wording. */
  lemma KnownStatusTemplate(claimId: Field, customerName: Field, status: Field)
    ensures status == Str("Perduota servisui") ==>
      StatusChange(claimId, customerName, status) == StatusTemplate("Perduota servisui", Render(claimId), Render(customerName))
    ensures status == Str("Išspręsta") ==>
      StatusChange(claimId, customerName, status) == StatusTemplate("Išspręsta", Render(claimId), Render(customerName))
  {
  }

  /** Every other status, an absent one included, gets the generic message. */
  lemma OtherStatusIsGeneric(claimId: Field, customerName: Field, status: Field)
    requires status != Str("Perduota servisui") && status != Str("Išspręsta")
    ensures StatusChange(claimId, customerName, status) == GenericStatusTemplate(Render(claimId), Render(customerName), Render(status))
  {
    if !status.Str? {
      MissingFieldIsNoKey(status);
    }
  }

  /** The generic message states the new status in its body. */
  lemma GenericStatusNamesStatus(claimId: Field, customerName: Field, status: Field)
    requires status != Str("Perduota servisui") && status != Str("Išspręsta")
    ensures Contains(StatusChange(claimId, customerName, status).body, "būsena pasikeitė į: " + Render(status) + ".")
  {
    OtherStatusIsGeneric(claimId, customerName, status);
    ContainsInfix("Sveiki, " + Render(customerName) + ",\n\nJūsų pretenzijos #" + Render(claimId) + " ",
      "būsena pasikeitė į: " + Render(status) + ".", Signature);
  }

  // ---------------------------------------------------------------------
  // Both tables as written: `templates[key]` is truthy for an inherited
  // member too, and such a member has no `subject` and no `body`. `None`
  // stands for a message handed to the transport without subject or text.

  /** server.js:123-124 as written. */
  function ConfirmationAsWritten(claimId: Field, language: Field, isRegistered: bool): (r: Option<Template>)
    ensures language.Str? && language.s in InheritedNames ==> r == None
  {
    var requested := if language.Undefined? then "lt" else Render(language);
    var lang := if Find(ConfirmationLanguages, requested).Absent? then "lt" else requested;
    match Find(ConfirmationLanguages, lang)
    case Own => Some(ConfirmationTemplate(WordingOf(lang), Render(claimId), isRegistered))
    case _ => None
  }

  /** server.js:259-262 as written. */
  function StatusChangeAsWritten(claimId: Field, customerName: Field, status: Field): (r: Option<Template>)
    ensures Render(status) in InheritedNames ==> r == None
  {
    match Find(StatusKeys, Render(status))
    case Own => Some(StatusTemplate(Render(status), Render(claimId), Render(customerName)))
    case Inherited => None
    case Absent => Some(GenericStatusTemplate(Render(claimId), Render(customerName), Render(status)))
  }

  /** `language: "constructor"` makes the confirmation lose its subject and
      text, where the Lithuanian fallback was meant; for every other
      language the code as written and the model agree. */
  lemma ConfirmationInheritedKey(claimId: Field, isRegistered: bool)
    ensures ConfirmationAsWritten(claimId, Str("constructor"), isRegistered) == None
    ensures Confirmation(claimId, Str("constructor"), isRegistered) == Confirmation(claimId, Str("lt"), isRegistered)
    ensures forall language: Field | !(language.Str? && language.s in InheritedNames) ::
      ConfirmationAsWritten(claimId, language, isRegistered) == Some(Confirmation(claimId, language, isRegistered))
  {
    forall language: Field | !(language.Str? && language.s in InheritedNames)
      ensures ConfirmationAsWritten(claimId, language, isRegistered) == Some(Confirmation(claimId, language, isRegistered))
    {
      if language.Null? {
        MissingFieldIsNoKey(language);
      }
    }
  }

  /** `status: "toString"` makes the status message lose its subject and
      text, where the generic message was meant; for every other status the
      code as written and the model agree. */
  lemma StatusInheritedKey(claimId: Field, customerName: Field)
    ensures StatusChangeAsWritten(claimId, customerName, Str("toString")) == None
    ensures StatusChange(claimId, customerName, Str("toString"))
      == GenericStatusTemplate(Render(claimId), Render(customerName), "toString")
    ensures forall status: Field | Render(status) !in InheritedNames ::
      StatusChangeAsWritten(claimId, customerName, status) == Some(StatusChange(claimId, customerName, status))
  {
  }
}
