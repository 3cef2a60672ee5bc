/**
 * `/api/send-email`: picks a subject and an HTML body by request type and
 * answers with them. Nothing is delivered; the composed message is only
 * logged and echoed back.
 */
module SendEmailRoute {
  import opened Schema
  import opened Text
  import opened Numbers

  /** The `type` of a request: the three the `EmailData` union names, or any other string. */
  datatype Kind =
    | QuoteGeneral   // "quote-general"
    | QuoteProduct   // "quote-product"
    | Services       // "services"
    | Other(name: string)

  /**
   * The kind a `type` string selects in the route's switch: each union string
   * its own case, anything else `Other` with that string.
   */
  function KindOf(s: string): (k: Kind)
    ensures k == QuoteGeneral <==> s == "quote-general"
    ensures k == QuoteProduct <==> s == "quote-product"
    ensures k == Services <==> s == "services"
    ensures k.Other? <==> s !in {"quote-general", "quote-product", "services"}
    ensures k.Other? ==> k.name == s
    ensures KindName(k) == s
  {
    if s == "quote-general" then QuoteGeneral
    else if s == "quote-product" then QuoteProduct
    else if s == "services" then Services
    else Other(s)
  }

  /** The `type` string a request of kind `k` carries in its JSON body. */
  function KindName(k: Kind): string {
    match k
    case QuoteGeneral => "quote-general"
    case QuoteProduct => "quote-product"
    case Services => "services"
    case Other(name) => name
  }

  /** The form's three kinds survive the JSON body: the route's switch selects the kind the form sent. */
  lemma KnownKindDecodes(k: Kind)
    requires KnownKind(k)
    ensures KindOf(KindName(k)) == k
  {
  }

  const GeneralSubject: string := "Solicitud de Cotización General - Agencia 1"
  const ProductSubjectPrefix: string := "Solicitud de Cotización - "
  const ServicesSubject: string := "Solicitud de Información de Servicios - Agencia 1"
  const SentMessage: string := "Correo enviado exitosamente"

  /** The request body; `kind` is the `type` field. Optional fields may be missing. */
  datatype EmailData = EmailData(
    kind: Kind,
    clientName: string,
    clientEmail: string,
    clientPhone: string,
    company: string,
    message: string,
    to: string,
    quantity: Option<string>,
    productName: Option<string>,
    productCode: Option<string>,
    productPrice: Option<int>,
    contactPreference: Option<string>)

  /** A template interpolation `${x}`: a missing value prints as "undefined". */
  function Shown(x: Option<string>): string {
    x.GetOr("undefined")
  }

  /** `${data.productPrice?.toFixed(2)}` */
  function UnitPrice(d: EmailData): string {
    match d.productPrice
    case Some(p) => ToFixed2(p)
    case None => "undefined"
  }

  /** `data.quantity || '1'`: a missing or empty quantity counts as one. */
  function QuantityOrOne(q: Option<string>): string {
    if q.None? || q.value == "" then "1" else q.value
  }

  /** `${(data.productPrice! * parseInt(data.quantity || '1')).toFixed(2)}`; a missing price or an unreadable quantity gives `NaN`. */
  function EstimatedTotal(d: EmailData): string {
    match (d.productPrice, ParseInt(QuantityOrOne(d.quantity)))
    case (Some(p), Some(q)) => ToFixed2(p * q)
    case _ => "NaN"
  }

  /** The fixed text of the templates, between interpolations. */
  datatype Markup =
    | Break(indent: nat)        // a line break and the next line's indentation
    | Heading(title: string)    // the `<h2>` title
    | FrameOpen                 // the outer `<div>`
    | BoxOpen                   // the product box `<div>`
    | BoxHeading                // the product box `<h3>`
    | Label(caption: string)    // the bold caption before a field's value
    | Currency
    | MessageLabel
    | MessageOpen               // the grey paragraph around the message
    | ParaClose
    | DivClose

  function Spaces(n: nat): (s: string)
    ensures |s| == n
  {
    if n == 0 then "" else " " + Spaces(n - 1)
  }

  function MarkupText(m: Markup): string {
    match m
    case Break(indent) => "\n" + Spaces(indent)
    case Heading(title) => "<h2>" + title + "</h2>"
    case FrameOpen => "<div style=\"font-family: Arial, sans-serif; line-height: 1.6;\">"
    case BoxOpen => "<div style=\"background-color: #e8f4fd; padding: 15px; border-radius: 8px; margin: 15px 0;\">"
    case BoxHeading => "<h3 style=\"margin: 0 0 10px 0; color: #1976d2;\">Información del Producto</h3>"
    case Label(caption) => "<p><strong>" + caption + ":</strong> "
    case Currency => "$"
    case MessageLabel => "<p><strong>Mensaje:</strong></p>"
    case MessageOpen => "<p style=\"background-color: #f5f5f5; padding: 10px; border-radius: 5px;\">"
    case ParaClose => "</p>"
    case DivClose => "</div>"
  }

  /** A piece of a template literal: fixed text, or the value of a `${...}`. */
  datatype Chunk = Fixed(m: Markup) | Slot(value: string)

  function ChunkText(c: Chunk): string {
    match c
    case Fixed(m) => MarkupText(m)
    case Slot(value) => value
  }

  /** The string a template literal evaluates to. */
  function Render(cs: seq<Chunk>): string {
    if cs == [] then "" else ChunkText(cs[0]) + Render(cs[1..])
  }

  /** `<p><strong>caption:</strong> value</p>`, the line of a field. */
  function Field(caption: string, value: string): string {
    MarkupText(Label(caption)) + value + MarkupText(ParaClose)
  }

  /** A field on its own line. */
  function FieldLine(indent: nat, caption: string, value: string): seq<Chunk> {
    [Fixed(Break(indent)), Fixed(Label(caption)), Slot(value), Fixed(ParaClose)]
  }

  /** A field whose value follows a `$` sign. */
  function PriceLine(caption: string, value: string): seq<Chunk> {
    [Fixed(Break(14)), Fixed(Label(caption)), Fixed(Currency), Slot(value), Fixed(ParaClose)]
  }

  /** The title and the opening of the outer `<div>`. */
  function Opening(title: string): seq<Chunk> {
    [Fixed(Break(10)), Fixed(Heading(title)), Fixed(Break(10)), Fixed(FrameOpen)]
  }

  /** The four client lines every template starts with. */
  function ClientFields(d: EmailData): seq<Chunk> {
    FieldLine(12, "Nombre", d.clientName) + FieldLine(12, "Email", d.clientEmail)
    + FieldLine(12, "Teléfono", d.clientPhone) + FieldLine(12, "Empresa", d.company)
  }

  const MessageHead: seq<Chunk> := [Fixed(Break(12)), Fixed(MessageLabel), Fixed(Break(12)), Fixed(MessageOpen)]
  const MessageTail: seq<Chunk> := [Fixed(ParaClose), Fixed(Break(10)), Fixed(DivClose), Fixed(Break(8))]

  /** The message box, the closing `</div>` and the indentation before the closing backtick. */
  function Closing(message: string): seq<Chunk> {
    MessageHead + [Slot(message)] + MessageTail
  }

  /** The shape of all three bodies: title, client lines, the lines of the type, message. */
  function Layout(title: string, d: EmailData, details: seq<Chunk>): seq<Chunk> {
    Opening(title) + ClientFields(d) + details + Closing(d.message)
  }

  /** The product box, between two blank lines. */
  function ProductBox(d: EmailData): seq<Chunk> {
    [Fixed(Break(12)), Fixed(Break(12)), Fixed(BoxOpen), Fixed(Break(14)), Fixed(BoxHeading)]
    + FieldLine(14, "Producto", Shown(d.productName))
    + FieldLine(14, "Código", Shown(d.productCode))
    + PriceLine("Precio Unitario", UnitPrice(d))
    + FieldLine(14, "Cantidad", Shown(d.quantity))
    + PriceLine("Total Estimado", EstimatedTotal(d))
    + [Fixed(Break(12)), Fixed(DivClose), Fixed(Break(12))]
  }

  /** The `<h2>` title of each template. */
  function Title(kind: Kind): string {
    match kind
    case QuoteGeneral => "Nueva Solicitud de Cotización General"
    case QuoteProduct => "Nueva Solicitud de Cotización de Producto"
    case Services => "Nueva Solicitud de Información de Servicios"
    case Other(_) => ""
  }

  /** The lines of each template between the client lines and the message. */
  function Details(d: EmailData): seq<Chunk> {
    match d.kind
    case QuoteGeneral => FieldLine(12, "Cantidad", Shown(d.quantity))
    case QuoteProduct => ProductBox(d)
    case Services => FieldLine(12, "Preferencia de Contacto", Shown(d.contactPreference))
    case Other(_) => []
  }

  predicate KnownKind(kind: Kind) {
    !kind.Other?
  }

  function Subject(d: EmailData): (s: string)
    ensures d.kind == QuoteGeneral ==> s == GeneralSubject
    ensures d.kind == QuoteProduct ==> s == ProductSubjectPrefix + Shown(d.productName)
    ensures d.kind == Services ==> s == ServicesSubject
    ensures !KnownKind(d.kind) ==> s == ""
  {
    match d.kind
    case QuoteGeneral => GeneralSubject
    case QuoteProduct => ProductSubjectPrefix + Shown(d.productName)
    case Services => ServicesSubject
    case Other(_) => ""
  }

  /** The template of the body; none for a type the switch does not name. */
  function Template(d: EmailData): seq<Chunk> {
    if KnownKind(d.kind) then Layout(Title(d.kind), d, Details(d)) else []
  }

  /** `htmlContent`: the rendered template, empty for a type the switch does not name. */
  function Body(d: EmailData): string {
    Render(Template(d))
  }

  lemma {:induction false} RenderAppend(a: seq<Chunk>, b: seq<Chunk>)
    ensures Render(a + b) == Render(a) + Render(b)
  {
    if a == [] {
      assert a + b == b;
    } else {
      assert (a + b)[0] == a[0];
      assert (a + b)[1..] == a[1..] + b;
      RenderAppend(a[1..], b);
    }
  }

  lemma RenderOne(c: Chunk)
    ensures Render([c]) == ChunkText(c)
  {
    assert [c][1..] == [];
  }

  lemma ContainsPrefixed(a: string, b: string, x: string)
    requires Contains(a, x)
    ensures Contains(a + b, x)
  {
    var i: nat :| OccursAt(a, x, i);
    assert (a + b)[i..i + |x|] == a[i..i + |x|];
    assert OccursAt(a + b, x, i);
  }

  lemma ContainsSuffixed(a: string, b: string, x: string)
    requires Contains(b, x)
    ensures Contains(a + b, x)
  {
    var i: nat :| OccursAt(b, x, i);
    assert (a + b)[|a| + i..|a| + i + |x|] == b[i..i + |x|];
    assert OccursAt(a + b, x, |a| + i);
  }

  /** What the first part of a template shows, the whole template shows. */
  lemma ShowsLeft(a: seq<Chunk>, b: seq<Chunk>, x: string)
    requires Contains(Render(a), x)
    ensures Contains(Render(a + b), x)
  {
    RenderAppend(a, b);
    ContainsPrefixed(Render(a), Render(b), x);
  }

  /** What the last part of a template shows, the whole template shows. */
  lemma ShowsRight(a: seq<Chunk>, b: seq<Chunk>, x: string)
    requires Contains(Render(b), x)
    ensures Contains(Render(a + b), x)
  {
    RenderAppend(a, b);
    ContainsSuffixed(Render(a), Render(b), x);
  }

  /** A field line shows the whole field, and so its value. */
  lemma FieldLineShows(indent: nat, caption: string, value: string)
    ensures Contains(Render(FieldLine(indent, caption, value)), Field(caption, value))
    ensures Contains(Render(FieldLine(indent, caption, value)), value)
  {
    var cs := FieldLine(indent, caption, value);
    var caps := MarkupText(Label(caption));
    var close := MarkupText(ParaClose);
    RenderOne(Fixed(ParaClose));
    assert cs[1..][1..][1..] == [Fixed(ParaClose)];
    assert Render(cs[1..][1..]) == value + close;
    assert Render(cs[1..]) == caps + (value + close);
    assert Render(cs) == MarkupText(Break(indent)) + Field(caption, value);
    SelfContains(Field(caption, value));
    ContainsSuffixed(MarkupText(Break(indent)), Field(caption, value), Field(caption, value));
    SelfContains(value);
    ContainsSuffixed(caps, value, value);
    ContainsPrefixed(caps + value, close, value);
    ContainsTransitive(Render(cs), Field(caption, value), value);
  }

  /** A price line shows its value. */
  lemma PriceLineShows(caption: string, value: string)
    ensures Contains(Render(PriceLine(caption, value)), value)
  {
    var cs := PriceLine(caption, value);
    var pre := [Fixed(Break(14)), Fixed(Label(caption)), Fixed(Currency)];
    assert cs == pre + [Slot(value), Fixed(ParaClose)];
    RenderOne(Fixed(ParaClose));
    assert [Slot(value), Fixed(ParaClose)][1..] == [Fixed(ParaClose)];
    assert Render([Slot(value), Fixed(ParaClose)]) == value + MarkupText(ParaClose);
    SelfContains(value);
    ContainsPrefixed(value, MarkupText(ParaClose), value);
    ShowsRight(pre, [Slot(value), Fixed(ParaClose)], value);
  }

  lemma {:induction false} ContainsTransitive(a: string, b: string, c: string)
    requires Contains(a, b) && Contains(b, c)
    ensures Contains(a, c)
  {
    var i: nat :| OccursAt(a, b, i);
    var j: nat :| OccursAt(b, c, j);
    assert a[i..i + |b|] == b;
    forall k | 0 <= k < |c|
      ensures a[i + j..i + j + |c|][k] == c[k]
    {
      assert c[k] == b[j + k] == a[i..i + |b|][j + k];
    }
    assert a[i + j..i + j + |c|] == c;
    assert OccursAt(a, c, i + j);
  }

  /** A string one of the four client lines shows is shown by the four together. */
  lemma ClientLinesShow(d: EmailData, x: string)
    requires
      || Contains(Render(FieldLine(12, "Nombre", d.clientName)), x)
      || Contains(Render(FieldLine(12, "Email", d.clientEmail)), x)
      || Contains(Render(FieldLine(12, "Teléfono", d.clientPhone)), x)
      || Contains(Render(FieldLine(12, "Empresa", d.company)), x)
    ensures Contains(Render(ClientFields(d)), x)
  {
    var name := FieldLine(12, "Nombre", d.clientName);
    var email := FieldLine(12, "Email", d.clientEmail);
    var phone := FieldLine(12, "Teléfono", d.clientPhone);
    var company := FieldLine(12, "Empresa", d.company);
    if Contains(Render(name), x) {
      ShowsLeft(name, email, x);
      ShowsLeft(name + email, phone, x);
    } else if Contains(Render(email), x) {
      ShowsRight(name, email, x);
      ShowsLeft(name + email, phone, x);
    } else if Contains(Render(phone), x) {
      ShowsRight(name + email, phone, x);
    }
    if Contains(Render(company), x) {
      ShowsRight(name + email + phone, company, x);
    } else {
      ShowsLeft(name + email + phone, company, x);
    }
  }

  /** The client lines show each client field, under its label and on its own. */
  lemma ClientFieldsShow(d: EmailData)
    ensures var r := Render(ClientFields(d));
      && Contains(r, Field("Nombre", d.clientName)) && Contains(r, Field("Email", d.clientEmail))
      && Contains(r, Field("Teléfono", d.clientPhone)) && Contains(r, Field("Empresa", d.company))
    ensures var r := Render(ClientFields(d));
      Contains(r, d.clientName) && Contains(r, d.clientEmail) && Contains(r, d.clientPhone) && Contains(r, d.company)
  {
    FieldLineShows(12, "Nombre", d.clientName);
    FieldLineShows(12, "Email", d.clientEmail);
    FieldLineShows(12, "Teléfono", d.clientPhone);
    FieldLineShows(12, "Empresa", d.company);
    ClientLinesShow(d, Field("Nombre", d.clientName));
    ClientLinesShow(d, Field("Email", d.clientEmail));
    ClientLinesShow(d, Field("Teléfono", d.clientPhone));
    ClientLinesShow(d, Field("Empresa", d.company));
    ClientLinesShow(d, d.clientName);
    ClientLinesShow(d, d.clientEmail);
    ClientLinesShow(d, d.clientPhone);
    ClientLinesShow(d, d.company);
  }

  /** The closing shows the message. */
  lemma ClosingShows(message: string)
    ensures Contains(Render(Closing(message)), message)
  {
    RenderOne(Slot(message));
    SelfContains(message);
    ShowsRight(MessageHead, [Slot(message)], message);
    ShowsLeft(MessageHead + [Slot(message)], MessageTail, message);
  }

  /** A value shown by the client lines or the lines of the type is shown by the body. */
  lemma LayoutShows(title: string, d: EmailData, details: seq<Chunk>, x: string)
    requires Contains(Render(ClientFields(d)), x) || Contains(Render(details), x)
    ensures Contains(Render(Layout(title, d, details)), x)
  {
    var open := Opening(title);
    if Contains(Render(ClientFields(d)), x) {
      ShowsRight(open, ClientFields(d), x);
      ShowsLeft(open + ClientFields(d), details, x);
    } else {
      ShowsRight(open + ClientFields(d), details, x);
    }
    ShowsLeft(open + ClientFields(d) + details, Closing(d.message), x);
  }

  /** The message is shown by the body whatever the other lines are. */
  lemma LayoutShowsMessage(title: string, d: EmailData, details: seq<Chunk>)
    ensures Contains(Render(Layout(title, d, details)), d.message)
  {
    ClosingShows(d.message);
    ShowsRight(Opening(title) + ClientFields(d) + details, Closing(d.message), d.message);
  }

  /** Every body of a known type shows the four client lines and the five client fields. */
  lemma BodyShowsClient(d: EmailData)
    requires KnownKind(d.kind)
    ensures Contains(Body(d), Field("Nombre", d.clientName)) && Contains(Body(d), Field("Email", d.clientEmail))
    ensures Contains(Body(d), Field("Teléfono", d.clientPhone)) && Contains(Body(d), Field("Empresa", d.company))
    ensures Contains(Body(d), d.clientName) && Contains(Body(d), d.clientEmail)
    ensures Contains(Body(d), d.clientPhone) && Contains(Body(d), d.company)
    ensures Contains(Body(d), d.message)
  {
    var title, details := Title(d.kind), Details(d);
    ClientFieldsShow(d);
    LayoutShows(title, d, details, Field("Nombre", d.clientName));
    LayoutShows(title, d, details, Field("Email", d.clientEmail));
    LayoutShows(title, d, details, Field("Teléfono", d.clientPhone));
    LayoutShows(title, d, details, Field("Empresa", d.company));
    LayoutShows(title, d, details, d.clientName);
    LayoutShows(title, d, details, d.clientEmail);
    LayoutShows(title, d, details, d.clientPhone);
    LayoutShows(title, d, details, d.company);
    LayoutShowsMessage(title, d, details);
  }

  /** The general quote body shows the quantity line. */
  lemma GeneralShowsQuantity(d: EmailData)
    requires d.kind == QuoteGeneral
    ensures Contains(Body(d), Field("Cantidad", Shown(d.quantity)))
  {
    FieldLineShows(12, "Cantidad", Shown(d.quantity));
    LayoutShows(Title(d.kind), d, Details(d), Field("Cantidad", Shown(d.quantity)));
  }

  /** The product box shows the product, code and quantity lines and the two prices. */
  lemma ProductBoxShows(d: EmailData)
    ensures var r := Render(ProductBox(d));
      && Contains(r, Field("Producto", Shown(d.productName)))
      && Contains(r, Field("Código", Shown(d.productCode)))
      && Contains(r, Field("Cantidad", Shown(d.quantity)))
      && Contains(r, UnitPrice(d)) && Contains(r, EstimatedTotal(d))
  {
    var top: seq<Chunk> := [Fixed(Break(12)), Fixed(Break(12)), Fixed(BoxOpen), Fixed(Break(14)), Fixed(BoxHeading)];
    var product := FieldLine(14, "Producto", Shown(d.productName));
    var code := FieldLine(14, "Código", Shown(d.productCode));
    var unit := PriceLine("Precio Unitario", UnitPrice(d));
    var qty := FieldLine(14, "Cantidad", Shown(d.quantity));
    var total := PriceLine("Total Estimado", EstimatedTotal(d));
    var bottom: seq<Chunk> := [Fixed(Break(12)), Fixed(DivClose), Fixed(Break(12))];
    var p := Field("Producto", Shown(d.productName));
    var c := Field("Código", Shown(d.productCode));
    var q := Field("Cantidad", Shown(d.quantity));
    FieldLineShows(14, "Producto", Shown(d.productName));
    FieldLineShows(14, "Código", Shown(d.productCode));
    FieldLineShows(14, "Cantidad", Shown(d.quantity));
    PriceLineShows("Precio Unitario", UnitPrice(d));
    PriceLineShows("Total Estimado", EstimatedTotal(d));
    // each line, then everything after it
    ShowsRight(top, product, p);
    ShowsLeft(top + product, code, p);
    ShowsRight(top + product, code, c);
    ShowsLeft(top + product + code, unit, p);
    ShowsLeft(top + product + code, unit, c);
    ShowsRight(top + product + code, unit, UnitPrice(d));
    ShowsLeft(top + product + code + unit, qty, p);
    ShowsLeft(top + product + code + unit, qty, c);
    ShowsLeft(top + product + code + unit, qty, UnitPrice(d));
    ShowsRight(top + product + code + unit, qty, q);
    var upToQty := top + product + code + unit + qty;
    ShowsLeft(upToQty, total, p);
    ShowsLeft(upToQty, total, c);
    ShowsLeft(upToQty, total, UnitPrice(d));
    ShowsLeft(upToQty, total, q);
    ShowsRight(upToQty, total, EstimatedTotal(d));
    ShowsLeft(upToQty + total, bottom, p);
    ShowsLeft(upToQty + total, bottom, c);
    ShowsLeft(upToQty + total, bottom, UnitPrice(d));
    ShowsLeft(upToQty + total, bottom, q);
    ShowsLeft(upToQty + total, bottom, EstimatedTotal(d));
  }

  /** The product quote body shows the product, code, unit price, quantity and estimated total lines. */
  lemma ProductShowsItsFields(d: EmailData)
    requires d.kind == QuoteProduct
    ensures Contains(Body(d), Field("Producto", Shown(d.productName)))
    ensures Contains(Body(d), Field("Código", Shown(d.productCode)))
    ensures Contains(Body(d), Field("Cantidad", Shown(d.quantity)))
    ensures Contains(Body(d), UnitPrice(d)) && Contains(Body(d), EstimatedTotal(d))
  {
    var title := Title(d.kind);
    ProductBoxShows(d);
    LayoutShows(title, d, ProductBox(d), Field("Producto", Shown(d.productName)));
    LayoutShows(title, d, ProductBox(d), Field("Código", Shown(d.productCode)));
    LayoutShows(title, d, ProductBox(d), Field("Cantidad", Shown(d.quantity)));
    LayoutShows(title, d, ProductBox(d), UnitPrice(d));
    LayoutShows(title, d, ProductBox(d), EstimatedTotal(d));
  }

  /** The services body shows the contact-preference line. */
  lemma ServicesShowsPreference(d: EmailData)
    requires d.kind == Services
    ensures Contains(Body(d), Field("Preferencia de Contacto", Shown(d.contactPreference)))
  {
    FieldLineShows(12, "Preferencia de Contacto", Shown(d.contactPreference));
    LayoutShows(Title(d.kind), d, Details(d), Field("Preferencia de Contacto", Shown(d.contactPreference)));
  }

  /** A product priced `p` and asked for in quantity `String(n)` shows the total `p * n` with two decimals. */
  lemma ProductTotal(d: EmailData, p: int, n: int)
    requires d.productPrice == Some(p) && d.quantity == Some(Decimal(n))
    ensures EstimatedTotal(d) == ToFixed2(p * n)
  {
    ParseDecimal(n);
    assert Decimal(n) != "";
  }

  /** Without a quantity the total is the unit price. */
  lemma ProductTotalWithoutQuantity(d: EmailData, p: int)
    requires d.productPrice == Some(p) && (d.quantity == None || d.quantity == Some(""))
    ensures EstimatedTotal(d) == UnitPrice(d)
  {
    ParseDecimal(1);
    assert Decimal(1) == "1";
  }

  /**
   * Only the services body depends on the contact preference, and only the
   * quote bodies depend on the quantity.
   */
  lemma BodyDependsOnlyOnItsFields(d: EmailData, pref: Option<string>, qty: Option<string>)
    ensures d.kind != Services ==> Body(d.(contactPreference := pref)) == Body(d)
    ensures d.kind == Services ==> Body(d.(quantity := qty)) == Body(d)
  {
  }

  /** The success payload: echoes `to` with the composed subject and body. */
  datatype EmailResponse = EmailResponse(success: bool, message: string, to: string, subject: string, htmlContent: string)

  /** POST /api/send-email: every request type, known or not, is answered with success. */
  function Respond(d: EmailData): (r: EmailResponse)
    ensures r.success && r.message == SentMessage && r.to == d.to
    ensures r.subject == Subject(d) && r.htmlContent == Body(d)
    ensures !KnownKind(d.kind) ==> r.subject == "" && r.htmlContent == ""
  {
    EmailResponse(true, SentMessage, d.to, Subject(d), Body(d))
  }
}
