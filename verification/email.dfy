/** Donation e-mails (src/lib/email.ts): the donor's receipt and the
    administrator's notification, each as an HTML body and a plain-text body,
    and the two senders that pick recipient and subject.

    A template is modelled as the sequence of its lines. Lines that carry no
    donation data are `Boilerplate`; every line that shows donation data has
    its own constructor, and `Render` spells it out in either format. Amount
    and date formatting (`Intl.NumberFormat`, `toLocaleDateString`,
    `toLocaleString`) are parameters. */
module Email {
  import opened Text
  import opened Js
  import opened DonationValidation

  // ------------------------------------------------------------ configuration

  /** The module-level `emailConfig`. */
  datatype EmailConfig = EmailConfig(
    from: string,
    replyTo: string,
    organizationName: string,
    organizationAddress: string,
    taxId: string,
    adminEmail: string)

  /** The environment variables `emailConfig` reads; `None` is an unset variable. */
  datatype Environment = Environment(
    emailFrom: Option<string>,
    emailReplyTo: Option<string>,
    adminEmail: Option<string>)

  /** `value || fallback` on an optional string: unset and empty both fall back. */
  function OrElse(value: Option<string>, fallback: string): string {
    if value.Some? && value.value != "" then value.value else fallback
  }

  /** `emailConfig` as built from the environment. */
  function ConfigFromEnvironment(env: Environment): (c: EmailConfig)
    ensures c.organizationName == "Beyond Borders Empowerment"
    ensures c.organizationAddress == "123 Main St, City, State 12345"
    ensures c.taxId == "12-3456789"
    ensures c.from != "" && c.replyTo != "" && c.adminEmail != ""
    ensures env.emailFrom.Some? && env.emailFrom.value != "" ==> c.from == env.emailFrom.value
    ensures env.emailFrom.None? || env.emailFrom.value == "" ==> c.from == "donations@bbe.org"
    ensures env.emailReplyTo.Some? && env.emailReplyTo.value != "" ==> c.replyTo == env.emailReplyTo.value
    ensures env.emailReplyTo.None? || env.emailReplyTo.value == "" ==> c.replyTo == "info@bbe.org"
    ensures env.adminEmail.Some? && env.adminEmail.value != "" ==> c.adminEmail == env.adminEmail.value
    ensures env.adminEmail.None? || env.adminEmail.value == "" ==> c.adminEmail == "admin@bbe.org"
  {
    EmailConfig(
      from := OrElse(env.emailFrom, "donations@bbe.org"),
      replyTo := OrElse(env.emailReplyTo, "info@bbe.org"),
      organizationName := "Beyond Borders Empowerment",
      organizationAddress := "123 Main St, City, State 12345",
      taxId := "12-3456789",
      adminEmail := OrElse(env.adminEmail, "admin@bbe.org"))
  }

  // ------------------------------------------------------------ the donation

  /** The part of a stored donation (`DonationRecord` of `@/lib/database`,
      which is not part of this model) that the e-mails read: the form data,
      the id, the payment intent's id, and the creation and completion
      times, in milliseconds. The status, error message and update time that
      `DonationsRoute.DonationRecord` also carries are never read here; no
      code in this model sets the completion time. */
  datatype MailedDonation = MailedDonation(
    form: DonationFormData,
    id: string,
    paymentIntentId: Option<string>,
    createdAt: nat,
    completedAt: Option<nat>)

  /** The formatting the templates delegate: `formatAmount` (src/lib/stripe.ts),
      `Date.toLocaleDateString` and `Date.toLocaleString`. */
  datatype Formatters = Formatters(
    money: Number -> string,
    date: nat -> string,
    dateTime: nat -> string)

  /** `completedAt?.toLocaleDateString() || createdAt.toLocaleDateString()`. */
  function ReceiptDate(f: Formatters, d: MailedDonation): string {
    if d.completedAt.Some? && f.date(d.completedAt.value) != "" then f.date(d.completedAt.value)
    else f.date(d.createdAt)
  }

  /** The receipt's date is the completion date whenever one is recorded and
      formats to something; otherwise the creation date. */
  lemma ReceiptDateChoice(f: Formatters, d: MailedDonation)
    ensures d.completedAt.None? ==> ReceiptDate(f, d) == f.date(d.createdAt)
    ensures d.completedAt.Some? && f.date(d.completedAt.value) != "" ==> ReceiptDate(f, d) == f.date(d.completedAt.value)
    ensures ReceiptDate(f, d) == f.date(d.createdAt) || (d.completedAt.Some? && ReceiptDate(f, d) == f.date(d.completedAt.value))
  {
  }

  function FullName(form: DonationFormData): string {
    form.firstName + " " + form.lastName
  }

  /** The name the notification shows: hidden for anonymous donors. */
  function AdminDonorName(form: DonationFormData): string {
    if form.isAnonymous then "Anonymous Donor" else FullName(form)
  }

  function TypeLabel(t: DonationType): string {
    if t == Monthly then "Monthly Recurring" else "One-time"
  }

  function DedicationLabel(t: DedicationType): string {
    if t == Honor then "In Honor Of" else "In Memory Of"
  }

  function UpdatesLabel(receiveUpdates: bool): string {
    if receiveUpdates then "Yes" else "No"
  }

  /** `${donation.paymentIntentId}`: an absent id is interpolated as "undefined". */
  function PaymentIntentText(id: Option<string>): string {
    if id.Some? then id.value else "undefined"
  }

  // ------------------------------------------------------------ lines

  datatype Format = Html | PlainText

  /** One line of a template. */
  datatype Line =
    | Boilerplate(text: string)
    | Greeting(name: string)
    | Thanks(monthly: bool, organization: string)
    | DonationIdLine(id: string)
    | DateLine(date: string)
    | AmountLine(amount: string)
    | TypeLine(caption: string)
    | DedicationLine(caption: string, name: string)
    | DedicationTypeLine(caption: string)
    | DedicationNameLine(name: string)
    | MessageLine(message: string)
    | MonthlyNotice(amount: string)
    | DonorLine(name: string)
    | EmailLine(email: string)
    | PaymentIntentLine(id: string)
    | AddressLine(address: string, city: string, state: string, zipCode: string)
    | CountryLine(country: string)
    | PhoneLine(phone: string)
    | UpdatesLine(caption: string)
  {
    /** Lines that show something about a dedication. */
    predicate IsDedication() {
      DedicationLine? || DedicationTypeLine? || DedicationNameLine? || MessageLine?
    }
  }

  /** `<p><strong>caption</strong> value</p>` indented by `indent` spaces. */
  function Labelled(indent: nat, caption: string, value: string): string {
    seq(indent, _ => ' ') + "<p><strong>" + caption + "</strong> " + value + "</p>"
  }

  const MonthlyNoticeTail :=
    " monthly donation will be " + "automatically processed " + "each month. You can update "
    + "or cancel your monthly " + "donation at any time by " + "contacting us."

  /** How each line is written in each format. */
  function Render(fmt: Format, l: Line): string {
    match (fmt, l)
    case (_, Boilerplate(t)) => t
    case (PlainText, Greeting(n)) => "Dear " + n + ","
    case (Html, Greeting(n)) => "        <p>Dear " + n + ",</p>"
    case (PlainText, Thanks(m, org)) =>
      "Thank you for your generous " + (if m then "monthly " else "") + "donation to " + org + "!"
    case (Html, Thanks(m, org)) =>
      "        <p>We are deeply " + "grateful for your generous " + (if m then "monthly " else "")
      + "donation to " + org + ". Your support helps us " + "continue our mission to "
      + "empower communities and " + "create lasting change.</p>"
    case (PlainText, DonationIdLine(id)) => "Donation ID: " + id
    case (Html, DonationIdLine(id)) => Labelled(10, "Donation ID:", id)
    case (PlainText, DateLine(date)) => "Date: " + date
    case (Html, DateLine(date)) => Labelled(10, "Date:", date)
    case (PlainText, AmountLine(a)) => "Amount: " + a
    case (Html, AmountLine(a)) => Labelled(10, "Amount:", "<span class=\"amount\">" + a + "</span>")
    case (PlainText, TypeLine(t)) => "Type: " + t
    case (Html, TypeLine(t)) => Labelled(10, "Type:", t)
    case (PlainText, DedicationLine(t, n)) => "Dedication: " + t + " " + n
    case (Html, DedicationLine(t, n)) => Labelled(12, "Dedication:", t + " " + n)
    case (PlainText, DedicationTypeLine(t)) => "Type: " + t
    case (Html, DedicationTypeLine(t)) => Labelled(12, "Type:", t)
    case (PlainText, DedicationNameLine(n)) => "Name: " + n
    case (Html, DedicationNameLine(n)) => Labelled(12, "Name:", n)
    case (PlainText, MessageLine(m)) => "Message: " + m
    case (Html, MessageLine(m)) => Labelled(12, "Message:", m)
    case (PlainText, MonthlyNotice(a)) => "MONTHLY DONATION: Your " + a + MonthlyNoticeTail
    case (Html, MonthlyNotice(a)) => Labelled(10, "Monthly Donation:", "Your " + a + MonthlyNoticeTail)
    case (PlainText, DonorLine(n)) => "Donor: " + n
    case (Html, DonorLine(n)) => Labelled(10, "Donor:", n)
    case (PlainText, EmailLine(e)) => "Email: " + e
    case (Html, EmailLine(e)) => Labelled(10, "Email:", e)
    case (PlainText, PaymentIntentLine(id)) => "Payment Intent: " + id
    case (Html, PaymentIntentLine(id)) => Labelled(10, "Payment Intent:", id)
    case (PlainText, AddressLine(a, c, s, z)) => "Address: " + a + ", " + c + ", " + s + " " + z
    case (Html, AddressLine(a, c, s, z)) => Labelled(10, "Address:", a + ", " + c + ", " + s + " " + z)
    case (PlainText, CountryLine(c)) => "Country: " + c
    case (Html, CountryLine(c)) => Labelled(10, "Country:", c)
    case (PlainText, PhoneLine(p)) => "Phone: " + p
    case (Html, PhoneLine(p)) => Labelled(10, "Phone:", p)
    case (PlainText, UpdatesLine(u)) => "Receive Updates: " + u
    case (Html, UpdatesLine(u)) => Labelled(10, "Receive Updates:", u)
  }

  /** A template's text: its lines rendered and joined with line breaks. */
  function RenderDocument(fmt: Format, doc: seq<Line>): string {
    Join(seq(|doc|, i requires 0 <= i < |doc| => Render(fmt, doc[i])), "\n")
  }

  /** Every line of a template occurs, rendered, in the template's text. */
  lemma LineShown(fmt: Format, doc: seq<Line>, l: Line)
    requires l in doc
    ensures Contains(RenderDocument(fmt, doc), Render(fmt, l))
  {
    var parts := seq(|doc|, i requires 0 <= i < |doc| => Render(fmt, doc[i]));
    var i :| 0 <= i < |doc| && doc[i] == l;
    JoinContains(parts, "\n", i);
  }

  /** A line of a template whose rendering is `text` puts `text` in the
      template's text. */
  lemma LineShownAs(fmt: Format, doc: seq<Line>, l: Line, text: string)
    requires l in doc && Render(fmt, l) == text
    ensures Contains(RenderDocument(fmt, doc), text)
  {
    LineShown(fmt, doc, l);
  }

  /** The receipt's greeting, date and type lines, wherever they stand in a
      document, occur in its plain-text rendering. */
  lemma ReceiptTextFactsShown(doc: seq<Line>, name: string, date: string, kind: string)
    requires Greeting(name) in doc && DateLine(date) in doc && TypeLine(kind) in doc
    ensures Contains(RenderDocument(PlainText, doc), "Dear " + name + ",")
    ensures Contains(RenderDocument(PlainText, doc), "Date: " + date)
    ensures Contains(RenderDocument(PlainText, doc), "Type: " + kind)
  {
    LineShownAs(PlainText, doc, Greeting(name), "Dear " + name + ",");
    LineShownAs(PlainText, doc, DateLine(date), "Date: " + date);
    LineShownAs(PlainText, doc, TypeLine(kind), "Type: " + kind);
  }

  /** The same lines in the HTML rendering. */
  lemma ReceiptHtmlFactsShown(doc: seq<Line>, name: string, date: string, kind: string)
    requires Greeting(name) in doc && DateLine(date) in doc && TypeLine(kind) in doc
    ensures Contains(RenderDocument(Html, doc), "        <p>Dear " + name + ",</p>")
    ensures Contains(RenderDocument(Html, doc), Labelled(10, "Date:", date))
    ensures Contains(RenderDocument(Html, doc), Labelled(10, "Type:", kind))
  {
    LineShownAs(Html, doc, Greeting(name), "        <p>Dear " + name + ",</p>");
    LineShownAs(Html, doc, DateLine(date), Labelled(10, "Date:", date));
    LineShownAs(Html, doc, TypeLine(kind), Labelled(10, "Type:", kind));
  }

  /** The notification's donor, e-mail and updates lines, wherever they
      stand in a document, occur in its plain-text rendering. */
  lemma AdminTextFactsShown(doc: seq<Line>, name: string, email: string, updates: string)
    requires DonorLine(name) in doc && EmailLine(email) in doc && UpdatesLine(updates) in doc
    ensures Contains(RenderDocument(PlainText, doc), "Donor: " + name)
    ensures Contains(RenderDocument(PlainText, doc), "Email: " + email)
    ensures Contains(RenderDocument(PlainText, doc), "Receive Updates: " + updates)
  {
    LineShownAs(PlainText, doc, DonorLine(name), "Donor: " + name);
    LineShownAs(PlainText, doc, EmailLine(email), "Email: " + email);
    LineShownAs(PlainText, doc, UpdatesLine(updates), "Receive Updates: " + updates);
  }

  /** The same lines in the HTML rendering. */
  lemma AdminHtmlFactsShown(doc: seq<Line>, name: string, email: string, updates: string)
    requires DonorLine(name) in doc && EmailLine(email) in doc && UpdatesLine(updates) in doc
    ensures Contains(RenderDocument(Html, doc), Labelled(10, "Donor:", name))
    ensures Contains(RenderDocument(Html, doc), Labelled(10, "Email:", email))
    ensures Contains(RenderDocument(Html, doc), Labelled(10, "Receive Updates:", updates))
  {
    LineShownAs(Html, doc, DonorLine(name), Labelled(10, "Donor:", name));
    LineShownAs(Html, doc, EmailLine(email), Labelled(10, "Email:", email));
    LineShownAs(Html, doc, UpdatesLine(updates), Labelled(10, "Receive Updates:", updates));
  }

  /** Lines that carry no donation data. */
  function Boilerplates(texts: seq<string>): (r: seq<Line>)
    ensures |r| == |texts|
    ensures forall l | l in r :: l.Boilerplate?
    ensures forall s :: !Shows(r, s)
  {
    seq(|texts|, i requires 0 <= i < |texts| => Boilerplate(texts[i]))
  }

  /** The parts of an e-mail one after the other. */
  function Concat(parts: seq<seq<Line>>): seq<Line> {
    if parts == [] then [] else parts[0] + Concat(parts[1..])
  }

  /** A line of one part is a line of the whole. */
  lemma {:induction false} InPart(parts: seq<seq<Line>>, i: nat, x: Line)
    requires i < |parts| && x in parts[i]
    ensures x in Concat(parts)
  {
    if i > 0 {
      InPart(parts[1..], i - 1, x);
    }
  }

  /** A line is in the concatenation exactly when it is in one of the parts. */
  lemma {:induction false} InConcat(parts: seq<seq<Line>>, x: Line)
    ensures x in Concat(parts) <==> exists p | p in parts :: x in p
  {
    if parts != [] {
      InConcat(parts[1..], x);
      assert forall p | p in parts :: p == parts[0] || p in parts[1..];
      assert forall p | p in parts[1..] :: p in parts;
    }
  }

  // ------------------------------------------------------------ sections

  /** The optional parts of an e-mail. */
  datatype Section = DedicationSection | MessageSection | MonthlySection | PhoneSection | ContactSection

  /** Whether a line belongs to a section. The contact section is the donor
      line, e-mail, postal address, country, phone and the updates preference. */
  predicate InSection(l: Line, s: Section) {
    match s
    case DedicationSection => l.IsDedication()
    case MessageSection => l.MessageLine?
    case MonthlySection => l.MonthlyNotice?
    case PhoneSection => l.PhoneLine?
    case ContactSection =>
      l.DonorLine? || l.EmailLine? || l.AddressLine? || l.CountryLine? || l.PhoneLine? || l.UpdatesLine?
  }

  /** Some line of the e-mail belongs to the section. */
  predicate Shows(doc: seq<Line>, s: Section) {
    exists l | l in doc :: InSection(l, s)
  }

  /** An e-mail shows a section exactly when one of its parts does. */
  lemma ShowsInParts(parts: seq<seq<Line>>, s: Section)
    ensures Shows(Concat(parts), s) <==> exists p | p in parts :: Shows(p, s)
  {
    forall x {
      InConcat(parts, x);
    }
  }

  /** When only part `i` can show a section, the e-mail shows it exactly when
      that part does. */
  lemma OnlyPartShows(parts: seq<seq<Line>>, i: nat, s: Section)
    requires i < |parts|
    requires forall j | 0 <= j < |parts| && j != i :: !Shows(parts[j], s)
    ensures Shows(Concat(parts), s) <==> Shows(parts[i], s)
  {
    ShowsInParts(parts, s);
    if Shows(Concat(parts), s) {
      var p :| p in parts && Shows(p, s);
      var j :| 0 <= j < |parts| && parts[j] == p;
      assert j == i;
    }
  }
  /** Document head, style sheet and the opening of the banner. */
  const ReceiptHtmlHead: seq<string> := [
      "    " + "<!DOCTYPE html>",
      "    " + "<html>",
      "    " + "<head>",
      "      " + "<meta charset=\"utf-8\">",
      "      " + "<title>Donation " + "Receipt</title>",
      "      " + "<style>",
      "        " + "body { font-family: " + "Arial, sans-serif; "
        + "line-height: 1.6; " + "color: #333; max-width: " + "600px; margin: 0 auto; "
        + "padding: 20px; }",
      "        " + ".header { background: " + "linear-gradient(135deg, "
        + "#2563eb, #3b82f6); " + "color: white; padding: " + "30px; text-align: "
        + "center; border-radius: " + "8px 8px 0 0; }",
      "        " + ".content { background: " + "#f9fafb; padding: 30px; "
        + "border-radius: 0 0 8px " + "8px; }",
      "        " + ".receipt-box { " + "background: white; " + "padding: 20px; "
        + "border-radius: 8px; " + "margin: 20px 0; " + "border-left: 4px solid "
        + "#2563eb; }",
      "        " + ".amount { font-size: " + "2em; font-weight: bold; "
        + "color: #2563eb; }",
      "        " + ".footer { margin-top: " + "30px; padding-top: "
        + "20px; border-top: 1px " + "solid #e5e7eb; " + "font-size: 0.9em; "
        + "color: #6b7280; }",
      "        " + ".tax-info { background: " + "#fef3c7; padding: 15px; "
        + "border-radius: 6px; " + "margin: 20px 0; }",
      "      " + "</style>",
      "    " + "</head>",
      "    " + "<body>",
      "      " + "<div class=\"header\">"]

  /** End of the banner, opening of the content. */
  const ReceiptHtmlGreetingOpen: seq<string> := [
      "        " + "<p>Thank you for your " + "generous donation!</p>",
      "      " + "</div>",
      "      ",
      "      " + "<div class=\"content\">"]

  /** Between the greeting and the thanks. */
  const ReceiptHtmlThanksOpen: seq<string> := [
      "        "]

  /** Opening of the receipt box. */
  const ReceiptHtmlBoxOpen: seq<string> := [
      "        ",
      "        " + "<div " + "class=\"receipt-box\">",
      "          " + "<h2>Donation " + "Receipt</h2>"]

  /** End of the receipt box, opening of the tax box. */
  const ReceiptHtmlTaxOpen: seq<string> := [
      "        " + "</div>",
      "        ",
      "        " + "<div class=\"tax-info\">",
      "          " + "<h3>Tax Information</h3>"]

  /** End of the tax box and the impact paragraph. */
  const ReceiptHtmlImpact: seq<string> := [
      "          " + "<p><strong>Please keep " + "this receipt for your " + "tax "
        + "records.</strong></p>",
      "        " + "</div>",
      "        ",
      "        " + "<p>Your donation will " + "help us:</p>",
      "        " + "<ul>",
      "          " + "<li>Provide educational " + "resources to " + "underserved "
        + "communities</li>",
      "          " + "<li>Support families " + "with essential " + "needs</li>",
      "          " + "<li>Empower individuals " + "through skill " + "development "
        + "programs</li>",
      "          " + "<li>Create sustainable " + "community development "
        + "initiatives</li>",
      "        " + "</ul>",
      "        "]

  /** Opening of the closing paragraph. */
  const ReceiptHtmlClosingOpen: seq<string> := [
      "        ",
      "        " + "<p>We will keep you " + "updated on how your "
        + "donation is making a " + "difference in the " + "communities we "
        + "serve.</p>",
      "        ",
      "        " + "<p>With heartfelt " + "gratitude,<br>"]

  /** Opening of the footer. */
  const ReceiptHtmlFooterOpen: seq<string> := [
      "      " + "</div>",
      "      ",
      "      " + "<div class=\"footer\">"]

  /** Between the address block and the contact line. */
  const ReceiptHtmlQuestionsOpen: seq<string> := [
      "        "]

  /** End of the footer and of the document. */
  const ReceiptHtmlTail: seq<string> := [
      "      " + "</div>",
      "    " + "</body>",
      "    " + "</html>"]

  /** Document head, style sheet, banner and the opening of the details box. */
  const AdminHtmlHead: seq<string> := [
      "    " + "<!DOCTYPE html>",
      "    " + "<html>",
      "    " + "<head>",
      "      " + "<meta charset=\"utf-8\">",
      "      " + "<title>New Donation " + "Notification</title>",
      "      " + "<style>",
      "        " + "body { font-family: " + "Arial, sans-serif; "
        + "line-height: 1.6; " + "color: #333; max-width: " + "600px; margin: 0 auto; "
        + "padding: 20px; }",
      "        " + ".header { background: " + "#059669; color: white; "
        + "padding: 20px; " + "text-align: center; " + "border-radius: 8px 8px "
        + "0 0; }",
      "        " + ".content { background: " + "#f0fdf4; padding: 20px; "
        + "border-radius: 0 0 8px " + "8px; }",
      "        " + ".donation-details { " + "background: white; " + "padding: 20px; "
        + "border-radius: 8px; " + "margin: 15px 0; }",
      "        " + ".amount { font-size: " + "1.5em; font-weight: "
        + "bold; color: #059669; }",
      "      " + "</style>",
      "    " + "</head>",
      "    " + "<body>",
      "      " + "<div class=\"header\">",
      "        " + "<h1>\U{1F389} New Donation " + "Received!</h1>",
      "      " + "</div>",
      "      ",
      "      " + "<div class=\"content\">",
      "        " + "<div " + "class=\"donation-details\"" + ">",
      "          " + "<h2>Donation " + "Details</h2>"]

  /** Spacer before the dedication slot. */
  const AdminHtmlDedicationOpen: seq<string> := [
      "          "]

  /** Spacer and the contact heading. */
  const AdminHtmlContactOpen: seq<string> := [
      "          ",
      "          " + "<h3>Contact " + "Information</h3>"]

  /** Spacer before the updates line. */
  const AdminHtmlUpdatesOpen: seq<string> := [
      "          "]

  /** End of the details box and of the document. */
  const AdminHtmlTail: seq<string> := [
      "        " + "</div>",
      "      " + "</div>",
      "    " + "</body>",
      "    " + "</html>"]

  // ------------------------------------------------------------ the receipt

  /** The receipt's dedication slot: the dedication and, for a non-empty
      message, the message (`inner` stands in for an empty one), framed by
      the slot's white space `outer`; `outer` alone when the gift is not
      dedicated. */
  function ReceiptDedicationSlot(form: DonationFormData, outer: string, inner: string): (r: seq<Line>)
    ensures form.dedicateGift <==> DedicationLine(DedicationLabel(form.dedicationType), form.dedicateName) in r
    ensures form.dedicateGift && form.dedicateMessage != "" ==> MessageLine(form.dedicateMessage) in r
    ensures Shows(r, DedicationSection) <==> form.dedicateGift
    ensures Shows(r, MessageSection) <==> form.dedicateGift && form.dedicateMessage != ""
    ensures !Shows(r, MonthlySection) && !Shows(r, PhoneSection) && !Shows(r, ContactSection)
  {
    if form.dedicateGift then
      [Boilerplate(outer),
       DedicationLine(DedicationLabel(form.dedicationType), form.dedicateName),
       if form.dedicateMessage != "" then MessageLine(form.dedicateMessage) else Boilerplate(inner),
       Boilerplate(outer)]
    else [Boilerplate(outer)]
  }

  /** The monthly slot: the billing notice for monthly gifts, framed by the
      slot's white space; that white space alone otherwise. */
  function MonthlySlot(f: Formatters, d: MailedDonation, outer: string): (r: seq<Line>)
    ensures d.form.donationType == Monthly <==> MonthlyNotice(f.money(d.form.amount)) in r
    ensures Shows(r, MonthlySection) <==> d.form.donationType == Monthly
    ensures !Shows(r, DedicationSection) && !Shows(r, MessageSection)
    ensures !Shows(r, PhoneSection) && !Shows(r, ContactSection)
  {
    if d.form.donationType == Monthly then
      [Boilerplate(outer), MonthlyNotice(f.money(d.form.amount)), Boilerplate(outer)]
    else [Boilerplate(outer)]
  }

  /** The receipt box: id, date, amount and type. */
  function ReceiptFacts(f: Formatters, d: MailedDonation): (r: seq<Line>)
    ensures DateLine(ReceiptDate(f, d)) in r && TypeLine(TypeLabel(d.form.donationType)) in r
    ensures forall s :: !Shows(r, s)
  {
    [DonationIdLine(d.id),
     DateLine(ReceiptDate(f, d)),
     AmountLine(f.money(d.form.amount)),
     TypeLine(TypeLabel(d.form.donationType))]
  }

  function TaxSentence(c: EmailConfig): string {
    "This donation is " + "tax-deductible to the full " + "extent allowed by law. " + c.organizationName
    + " is a 501(c)(3) nonprofit " + "organization (Tax ID: " + c.taxId + ")."
  }

  /** The boilerplate a receipt format wraps around the donation data:
      the lines before the greeting, before the thanks, before the receipt
      box, between the dedication slot and the monthly slot, and after it;
      and the white space the two slots are written with. */
  datatype ReceiptFrame = ReceiptFrame(
    beforeGreeting: seq<string>,
    beforeThanks: seq<string>,
    beforeFacts: seq<string>,
    dedicationOuter: string,
    dedicationInner: string,
    beforeMonthly: seq<string>,
    monthlyOuter: string,
    closing: seq<string>)

  /** The receipt in either format, part by part: greeting, thanks, receipt
      box, dedication slot and monthly slot, inside the format's boilerplate. */
  function ReceiptParts(frame: ReceiptFrame, c: EmailConfig, f: Formatters, d: MailedDonation): seq<seq<Line>> {
    [Boilerplates(frame.beforeGreeting),
     [Greeting(FullName(d.form))],
     Boilerplates(frame.beforeThanks),
     [Thanks(d.form.donationType == Monthly, c.organizationName)],
     Boilerplates(frame.beforeFacts),
     ReceiptFacts(f, d),
     ReceiptDedicationSlot(d.form, frame.dedicationOuter, frame.dedicationInner),
     Boilerplates(frame.beforeMonthly),
     MonthlySlot(f, d, frame.monthlyOuter),
     Boilerplates(frame.closing)]
  }

  function ReceiptLines(frame: ReceiptFrame, c: EmailConfig, f: Formatters, d: MailedDonation): seq<Line> {
    Concat(ReceiptParts(frame, c, f, d))
  }
  /** The boilerplate of `generateReceiptText`. */
  function ReceiptTextFrame(c: EmailConfig): ReceiptFrame {
    ReceiptFrame(
      beforeGreeting := [""],
      beforeThanks := [""],
      beforeFacts := ["", "DONATION RECEIPT", "================"],
      dedicationOuter := "",
      dedicationInner := "",
      beforeMonthly := [
        "",
        "TAX INFORMATION",
        "===============",
        TaxSentence(c),
        "",
        "Please keep this receipt " + "for your tax records.",
        ""],
      monthlyOuter := "",
      closing := [
        "",
        "With heartfelt gratitude,",
        "The " + c.organizationName + " Team",
        "",
        c.organizationName,
        c.organizationAddress,
        "Tax ID: " + c.taxId,
        "",
        "Questions? Contact us at " + c.replyTo,
        "  "])
  }

  /** The boilerplate of `generateReceiptHTML`. */
  function ReceiptHtmlFrame(c: EmailConfig): ReceiptFrame {
    ReceiptFrame(
      beforeGreeting := [""] + ReceiptHtmlHead + ["        <h1>" + c.organizationName + "</h1>"] + ReceiptHtmlGreetingOpen,
      beforeThanks := ReceiptHtmlThanksOpen,
      beforeFacts := ReceiptHtmlBoxOpen,
      dedicationOuter := "          ",
      dedicationInner := "            ",
      beforeMonthly := ReceiptHtmlTaxOpen + ["          <p>" + TaxSentence(c) + "</p>"] + ReceiptHtmlImpact,
      monthlyOuter := "        ",
      closing :=
        ReceiptHtmlClosingOpen
        + ["        The " + c.organizationName + " Team</p>"]
        + ReceiptHtmlFooterOpen
        + ["        <p>" + c.organizationName + "<br>",
           "        " + c.organizationAddress + "<br>",
           "        Tax ID: " + c.taxId + "</p>"]
        + ReceiptHtmlQuestionsOpen
        + ["        <p>Questions? " + "Contact us at " + c.replyTo + "</p>"]
        + ReceiptHtmlTail
        + ["  "])
  }

  /** `generateReceiptText`: the text greets the donor by full name and
      shows the receipt date and the type label. */
  function GenerateReceiptText(c: EmailConfig, f: Formatters, d: MailedDonation): (r: string)
    ensures Contains(r, "Dear " + FullName(d.form) + ",")
    ensures Contains(r, "Date: " + ReceiptDate(f, d))
    ensures Contains(r, "Type: " + TypeLabel(d.form.donationType))
  {
    var doc := ReceiptLines(ReceiptTextFrame(c), c, f, d);
    ReceiptNamesDonorDateAndType(ReceiptTextFrame(c), c, f, d);
    ReceiptTextFactsShown(doc, FullName(d.form), ReceiptDate(f, d), TypeLabel(d.form.donationType));
    RenderDocument(PlainText, doc)
  }

  /** `generateReceiptHTML`: the same three facts, as HTML paragraphs and
      table rows. */
  function GenerateReceiptHtml(c: EmailConfig, f: Formatters, d: MailedDonation): (r: string)
    ensures Contains(r, "        <p>Dear " + FullName(d.form) + ",</p>")
    ensures Contains(r, Labelled(10, "Date:", ReceiptDate(f, d)))
    ensures Contains(r, Labelled(10, "Type:", TypeLabel(d.form.donationType)))
  {
    var doc := ReceiptLines(ReceiptHtmlFrame(c), c, f, d);
    ReceiptNamesDonorDateAndType(ReceiptHtmlFrame(c), c, f, d);
    ReceiptHtmlFactsShown(doc, FullName(d.form), ReceiptDate(f, d), TypeLabel(d.form.donationType));
    RenderDocument(Html, doc)
  }

  // ------------------------------------------------------------ the notification

  /** The notification's dedication slot: a heading, the type, the name and,
      for a non-empty message, the message (`inner` stands in for an empty
      one), framed by `outer`; `outer` alone when the gift is not dedicated. */
  function AdminDedicationSlot(form: DonationFormData, outer: string, heading: string, inner: string): (r: seq<Line>)
    ensures form.dedicateGift ==>
      DedicationTypeLine(DedicationLabel(form.dedicationType)) in r && DedicationNameLine(form.dedicateName) in r
    ensures form.dedicateGift && form.dedicateMessage != "" ==> MessageLine(form.dedicateMessage) in r
    ensures Shows(r, DedicationSection) <==> form.dedicateGift
    ensures Shows(r, MessageSection) <==> form.dedicateGift && form.dedicateMessage != ""
    ensures !Shows(r, MonthlySection) && !Shows(r, PhoneSection) && !Shows(r, ContactSection)
  {
    if form.dedicateGift then
      [Boilerplate(outer),
       Boilerplate(heading),
       DedicationTypeLine(DedicationLabel(form.dedicationType)),
       DedicationNameLine(form.dedicateName),
       if form.dedicateMessage != "" then MessageLine(form.dedicateMessage) else Boilerplate(inner),
       Boilerplate(outer)]
    else [Boilerplate(outer)]
  }

  /** The notification's details box: donor, e-mail, amount, type, time of
      the donation, id and payment intent. */
  function AdminFacts(f: Formatters, d: MailedDonation): (r: seq<Line>)
    ensures DonorLine(AdminDonorName(d.form)) in r && EmailLine(d.form.email) in r
    ensures Shows(r, ContactSection)
    ensures !Shows(r, DedicationSection) && !Shows(r, MessageSection)
    ensures !Shows(r, MonthlySection) && !Shows(r, PhoneSection)
  {
    [DonorLine(AdminDonorName(d.form)),
     EmailLine(d.form.email),
     AmountLine(f.money(d.form.amount)),
     TypeLine(TypeLabel(d.form.donationType)),
     DateLine(f.dateTime(d.createdAt)),
     DonationIdLine(d.id),
     PaymentIntentLine(PaymentIntentText(d.paymentIntentId))]
  }

  /** Address, country and, for a non-empty phone, the phone (`blank` stands
      in for an empty one). */
  function AdminContact(form: DonationFormData, blank: string): (r: seq<Line>)
    ensures form.phone != "" ==> PhoneLine(form.phone) in r
    ensures Shows(r, PhoneSection) <==> form.phone != ""
    ensures !Shows(r, DedicationSection) && !Shows(r, MessageSection) && !Shows(r, MonthlySection)
  {
    [AddressLine(form.address, form.city, form.state, form.zipCode),
     CountryLine(form.country),
     if form.phone != "" then PhoneLine(form.phone) else Boilerplate(blank)]
  }

  /** The boilerplate a notification format wraps around the donation data,
      and the white space its two slots are written with. */
  datatype AdminFrame = AdminFrame(
    opening: seq<string>,
    beforeDedication: seq<string>,
    dedicationOuter: string,
    dedicationHeading: string,
    dedicationInner: string,
    beforeContact: seq<string>,
    phoneBlank: string,
    beforeUpdates: seq<string>,
    closing: seq<string>)

  /** The notification in either format, part by part: details box,
      dedication slot, contact block and the updates preference, inside the
      format's boilerplate. */
  function AdminParts(frame: AdminFrame, f: Formatters, d: MailedDonation): seq<seq<Line>> {
    [Boilerplates(frame.opening),
     AdminFacts(f, d),
     Boilerplates(frame.beforeDedication),
     AdminDedicationSlot(d.form, frame.dedicationOuter, frame.dedicationHeading, frame.dedicationInner),
     Boilerplates(frame.beforeContact),
     AdminContact(d.form, frame.phoneBlank),
     Boilerplates(frame.beforeUpdates),
     [UpdatesLine(UpdatesLabel(d.form.receiveUpdates))],
     Boilerplates(frame.closing)]
  }

  function AdminLines(frame: AdminFrame, f: Formatters, d: MailedDonation): seq<Line> {
    Concat(AdminParts(frame, f, d))
  }

  /** The boilerplate of `generateAdminNotificationText`. */
  const AdminTextFrame := AdminFrame(
    opening := ["", "NEW DONATION RECEIVED!", ""],
    beforeDedication := [""],
    dedicationOuter := "",
    dedicationHeading := "DEDICATION:",
    dedicationInner := "",
    beforeContact := ["", "CONTACT INFORMATION:"],
    phoneBlank := "",
    beforeUpdates := [""],
    closing := ["  "])

  /** The boilerplate of `generateAdminNotificationHTML`. */
  const AdminHtmlFrame := AdminFrame(
    opening := [""] + AdminHtmlHead,
    beforeDedication := AdminHtmlDedicationOpen,
    dedicationOuter := "          ",
    dedicationHeading := "            <h3>Dedication</h3>",
    dedicationInner := "            ",
    beforeContact := AdminHtmlContactOpen,
    phoneBlank := "          ",
    beforeUpdates := AdminHtmlUpdatesOpen,
    closing := AdminHtmlTail + ["  "])

  /** `generateAdminNotificationText`: the text names the donor as
      `AdminDonorName` does and shows their e-mail and the updates answer. */
  function GenerateAdminText(f: Formatters, d: MailedDonation): (r: string)
    ensures Contains(r, "Donor: " + AdminDonorName(d.form))
    ensures Contains(r, "Email: " + d.form.email)
    ensures Contains(r, "Receive Updates: " + UpdatesLabel(d.form.receiveUpdates))
  {
    var doc := AdminLines(AdminTextFrame, f, d);
    AdminNamesDonorEmailAndUpdates(AdminTextFrame, f, d);
    AdminTextFactsShown(doc, AdminDonorName(d.form), d.form.email, UpdatesLabel(d.form.receiveUpdates));
    RenderDocument(PlainText, doc)
  }

  /** `generateAdminNotificationHTML`: the same three facts, as table rows. */
  function GenerateAdminHtml(f: Formatters, d: MailedDonation): (r: string)
    ensures Contains(r, Labelled(10, "Donor:", AdminDonorName(d.form)))
    ensures Contains(r, Labelled(10, "Email:", d.form.email))
    ensures Contains(r, Labelled(10, "Receive Updates:", UpdatesLabel(d.form.receiveUpdates)))
  {
    var doc := AdminLines(AdminHtmlFrame, f, d);
    AdminNamesDonorEmailAndUpdates(AdminHtmlFrame, f, d);
    AdminHtmlFactsShown(doc, AdminDonorName(d.form), d.form.email, UpdatesLabel(d.form.receiveUpdates));
    RenderDocument(Html, doc)
  }

  // ------------------------------------------------------------ what the e-mails show

  /** The receipt, in either format, greets the donor by full name and
      shows the receipt date and the type label. */
  lemma ReceiptNamesDonorDateAndType(frame: ReceiptFrame, c: EmailConfig, f: Formatters, d: MailedDonation)
    ensures var r := ReceiptLines(frame, c, f, d);
      && Greeting(FullName(d.form)) in r
      && DateLine(ReceiptDate(f, d)) in r && TypeLine(TypeLabel(d.form.donationType)) in r
  {
    var parts := ReceiptParts(frame, c, f, d);
    InPart(parts, 1, Greeting(FullName(d.form)));
    InPart(parts, 5, DateLine(ReceiptDate(f, d)));
    InPart(parts, 5, TypeLine(TypeLabel(d.form.donationType)));
  }

  /** The receipt, in either format, shows the dedication block exactly for
      dedicated gifts, naming the honour or memory and the dedicatee, and
      its message exactly for a non-empty message. */
  lemma ReceiptDedication(frame: ReceiptFrame, c: EmailConfig, f: Formatters, d: MailedDonation)
    ensures var r := ReceiptLines(frame, c, f, d);
      && (Shows(r, DedicationSection) <==> d.form.dedicateGift)
      && (d.form.dedicateGift ==> DedicationLine(DedicationLabel(d.form.dedicationType), d.form.dedicateName) in r)
      && (Shows(r, MessageSection) <==> d.form.dedicateGift && d.form.dedicateMessage != "")
      && (d.form.dedicateGift && d.form.dedicateMessage != "" ==> MessageLine(d.form.dedicateMessage) in r)
  {
    var parts := ReceiptParts(frame, c, f, d);
    forall j | 0 <= j < |parts| && j != 6
      ensures !Shows(parts[j], DedicationSection) && !Shows(parts[j], MessageSection)
    {
    }
    OnlyPartShows(parts, 6, DedicationSection);
    OnlyPartShows(parts, 6, MessageSection);
    if d.form.dedicateGift {
      InPart(parts, 6, DedicationLine(DedicationLabel(d.form.dedicationType), d.form.dedicateName));
      if d.form.dedicateMessage != "" {
        InPart(parts, 6, MessageLine(d.form.dedicateMessage));
      }
    }
  }

  /** The receipt, in either format, shows the billing notice exactly for
      monthly gifts. */
  lemma ReceiptMonthlyNotice(frame: ReceiptFrame, c: EmailConfig, f: Formatters, d: MailedDonation)
    ensures var r := ReceiptLines(frame, c, f, d);
      && (Shows(r, MonthlySection) <==> d.form.donationType == Monthly)
      && (d.form.donationType == Monthly ==> MonthlyNotice(f.money(d.form.amount)) in r)
  {
    var parts := ReceiptParts(frame, c, f, d);
    ShowsInParts(parts, MonthlySection);
    if d.form.donationType == Monthly {
      InPart(parts, 8, MonthlyNotice(f.money(d.form.amount)));
    }
  }

  /** The receipt, in either format, never shows contact details: no
      e-mail, address, country, phone or updates answer. */
  lemma ReceiptHasNoContact(frame: ReceiptFrame, c: EmailConfig, f: Formatters, d: MailedDonation)
    ensures !Shows(ReceiptLines(frame, c, f, d), ContactSection)
  {
    ShowsInParts(ReceiptParts(frame, c, f, d), ContactSection);
  }

  /** The notification, in either format, names the donor as
      `AdminDonorName` does, shows their e-mail (anonymous or not) and the
      updates answer, and never a billing notice. */
  lemma AdminNamesDonorEmailAndUpdates(frame: AdminFrame, f: Formatters, d: MailedDonation)
    ensures var r := AdminLines(frame, f, d);
      && DonorLine(AdminDonorName(d.form)) in r && EmailLine(d.form.email) in r
      && UpdatesLine(UpdatesLabel(d.form.receiveUpdates)) in r
      && !Shows(r, MonthlySection)
  {
    var parts := AdminParts(frame, f, d);
    InPart(parts, 1, DonorLine(AdminDonorName(d.form)));
    InPart(parts, 1, EmailLine(d.form.email));
    InPart(parts, 7, UpdatesLine(UpdatesLabel(d.form.receiveUpdates)));
    ShowsInParts(parts, MonthlySection);
  }

  /** The notification, in either format, shows the dedication block exactly
      for dedicated gifts, with its type and name, and the message exactly
      for a non-empty message. */
  lemma AdminDedication(frame: AdminFrame, f: Formatters, d: MailedDonation)
    ensures var r := AdminLines(frame, f, d);
      && (Shows(r, DedicationSection) <==> d.form.dedicateGift)
      && (d.form.dedicateGift ==>
            DedicationTypeLine(DedicationLabel(d.form.dedicationType)) in r && DedicationNameLine(d.form.dedicateName) in r)
      && (Shows(r, MessageSection) <==> d.form.dedicateGift && d.form.dedicateMessage != "")
  {
    var parts := AdminParts(frame, f, d);
    forall j | 0 <= j < |parts| && j != 3
      ensures !Shows(parts[j], DedicationSection) && !Shows(parts[j], MessageSection)
    {
    }
    OnlyPartShows(parts, 3, DedicationSection);
    OnlyPartShows(parts, 3, MessageSection);
    if d.form.dedicateGift {
      InPart(parts, 3, DedicationTypeLine(DedicationLabel(d.form.dedicationType)));
      InPart(parts, 3, DedicationNameLine(d.form.dedicateName));
    }
  }

  /** The notification, in either format, shows the phone exactly for a
      non-empty phone. */
  lemma AdminPhone(frame: AdminFrame, f: Formatters, d: MailedDonation)
    ensures var r := AdminLines(frame, f, d);
      && (Shows(r, PhoneSection) <==> d.form.phone != "")
      && (d.form.phone != "" ==> PhoneLine(d.form.phone) in r)
  {
    var parts := AdminParts(frame, f, d);
    ShowsInParts(parts, PhoneSection);
    if d.form.phone != "" {
      InPart(parts, 5, PhoneLine(d.form.phone));
    }
  }

  /** The receipt always addresses the donor by full name: it reads neither
      the anonymity flag nor any contact field. */
  lemma ReceiptIgnoresAnonymityAndContact(frame: ReceiptFrame, c: EmailConfig, f: Formatters, d: MailedDonation,
                                          other: DonationFormData)
    requires other.firstName == d.form.firstName && other.lastName == d.form.lastName
    requires other.amount == d.form.amount && other.donationType == d.form.donationType
    requires other.dedicateGift == d.form.dedicateGift && other.dedicationType == d.form.dedicationType
    requires other.dedicateName == d.form.dedicateName && other.dedicateMessage == d.form.dedicateMessage
    ensures ReceiptLines(frame, c, f, d.(form := other)) == ReceiptLines(frame, c, f, d)
  {
  }

  /** An anonymous donor's name never reaches the notification. */
  lemma AdminHidesAnonymousName(frame: AdminFrame, f: Formatters, d: MailedDonation, firstName: string, lastName: string)
    requires d.form.isAnonymous
    ensures AdminLines(frame, f, d.(form := d.form.(firstName := firstName, lastName := lastName))) == AdminLines(frame, f, d)
  {
  }

  /** Without a dedication, neither e-mail depends on the dedication fields. */
  lemma UndedicatedIgnoresDedication(rf: ReceiptFrame, af: AdminFrame, c: EmailConfig, f: Formatters, d: MailedDonation,
                                     t: DedicationType, name: string, message: string)
    requires !d.form.dedicateGift
    ensures var other := d.(form := d.form.(dedicationType := t, dedicateName := name, dedicateMessage := message));
      && ReceiptLines(rf, c, f, other) == ReceiptLines(rf, c, f, d)
      && AdminLines(af, f, other) == AdminLines(af, f, d)
  {
  }

  // ------------------------------------------------------------ sending

  /** A message as handed to the mail transport. */
  datatype OutgoingEmail = OutgoingEmail(to: string, from: string, subject: string, html: string, text: string)

  /** Whatever delivers the message (the development build only logs it);
      it may throw. */
  type Transport = OutgoingEmail -> Outcome<()>

  const SendFailedMessage := "Failed to send email"

  /** `sendEmail`: the message goes out from the configured sender; success
      is `{ success: true }`, and whatever the transport throws is replaced by
      an error with a fixed message. */
  function SendEmail(c: EmailConfig, to: string, subject: string, html: string, text: string, transport: Transport)
    : (r: (OutgoingEmail, Outcome<()>))
    ensures r.0.to == to && r.0.from == c.from && r.0.subject == subject
    ensures r.0.html == html && r.0.text == text
    ensures r.1.Returned? <==> transport(r.0).Returned?
    ensures r.1.Threw? ==> r.1.thrown == ErrorObject(SendFailedMessage)
  {
    var message := OutgoingEmail(to, c.from, subject, html, text);
    match transport(message)
    case Returned(_) => (message, Returned(()))
    case Threw(_) => (message, Threw(ErrorObject(SendFailedMessage)))
  }

  /** `sendDonationReceipt`: the receipt goes to the donor's address under a
      thank-you subject; a failure to send is rethrown as is. */
  function SendDonationReceipt(c: EmailConfig, f: Formatters, d: MailedDonation, transport: Transport)
    : (r: (OutgoingEmail, Outcome<()>))
    ensures r.0.to == d.form.email && r.0.from == c.from
    ensures r.0.subject == "Thank you for your donation to " + c.organizationName
    ensures r.0.html == GenerateReceiptHtml(c, f, d) && r.0.text == GenerateReceiptText(c, f, d)
    ensures r.1.Returned? <==> transport(r.0).Returned?
    ensures r.1.Threw? ==> r.1.thrown == ErrorObject(SendFailedMessage)
  {
    var html := GenerateReceiptHtml(c, f, d);
    var text := GenerateReceiptText(c, f, d);
    SendEmail(c, d.form.email, "Thank you for your donation to " + c.organizationName, html, text, transport)
  }

  /** `sendAdminNotification`: the notification goes to the administrator
      under a subject naming the amount and the donation type; a failure to
      send is rethrown as is. */
  function SendAdminNotification(c: EmailConfig, f: Formatters, d: MailedDonation, transport: Transport)
    : (r: (OutgoingEmail, Outcome<()>))
    ensures r.0.to == c.adminEmail && r.0.from == c.from
    ensures r.0.subject == "New Donation Received - " + f.money(d.form.amount) + " " + DonationTypeText(d.form.donationType)
    ensures r.0.html == GenerateAdminHtml(f, d) && r.0.text == GenerateAdminText(f, d)
    ensures r.1.Returned? <==> transport(r.0).Returned?
    ensures r.1.Threw? ==> r.1.thrown == ErrorObject(SendFailedMessage)
  {
    var html := GenerateAdminHtml(f, d);
    var text := GenerateAdminText(f, d);
    SendEmail(c, c.adminEmail,
              "New Donation Received - " + f.money(d.form.amount) + " " + DonationTypeText(d.form.donationType),
              html, text, transport)
  }

  /** With the site's configuration, the receipt's subject names the
      organisation, the notification goes to the configured administrator
      (admin@bbe.org unless overridden), and every message comes from a
      non-empty sender. */
  lemma ConfiguredSending(env: Environment, f: Formatters, d: MailedDonation, transport: Transport)
    ensures var c := ConfigFromEnvironment(env);
      && SendDonationReceipt(c, f, d, transport).0.subject == "Thank you for your donation to " + "Beyond Borders Empowerment"
      && SendDonationReceipt(c, f, d, transport).0.from != ""
      && (env.adminEmail.None? ==> SendAdminNotification(c, f, d, transport).0.to == "admin@bbe.org")
  {
  }
}
