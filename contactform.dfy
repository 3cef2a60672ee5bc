/**
 * `DynamicContactForm`: the dialog that composes an `/api/send-email`
 * request from its seven form fields, the form type and the product being
 * quoted, and resets itself after a successful send.
 */
module ContactForm {
  import opened Schema
  import opened Text
  import opened SendEmailRoute

  const SalesAddress: string := "ventas@agencia1.cl"
  const FallbackTitle: string := "Contacto"
  const FallbackDescription: string := "Complete el formulario para contactarnos"

  /** The `product` prop. */
  datatype FormProduct = FormProduct(id: Id, name: string, code: string, price: int)

  /** `formData`: the seven controlled inputs. */
  datatype FormFields = FormFields(
    clientName: string,
    clientEmail: string,
    clientPhone: string,
    company: string,
    quantity: string,
    message: string,
    contactPreference: string)

  const EmptyForm: FormFields := FormFields("", "", "", "", "", "", "")

  /**
   * The `emailData` object `handleSubmit` sends. Fields the spreads do not
   * add are absent from the JSON and reach the route as missing values.
   */
  function BuildEmailData(kind: Kind, product: Option<FormProduct>, form: FormFields): (d: EmailData)
    ensures d.kind == kind && d.to == SalesAddress
    ensures d.clientName == form.clientName && d.clientEmail == form.clientEmail
    ensures d.clientPhone == form.clientPhone && d.company == form.company && d.message == form.message
    ensures d.productName.Some? <==> kind == QuoteProduct && product.Some?
    ensures d.productName.Some? ==>
      d.productName == Some(product.value.name) && d.productCode == Some(product.value.code)
      && d.productPrice == Some(product.value.price)
    ensures d.productName.None? ==> d.productCode.None? && d.productPrice.None?
    ensures d.quantity.Some? <==> kind == QuoteGeneral || (kind == QuoteProduct && product.Some?)
    ensures d.quantity.Some? ==> d.quantity == Some(form.quantity)
    ensures d.contactPreference.Some? <==> kind == Services
    ensures d.contactPreference.Some? ==> d.contactPreference == Some(form.contactPreference)
  {
    var base := EmailData(kind, form.clientName, form.clientEmail, form.clientPhone, form.company,
                          form.message, SalesAddress, None, None, None, None, None);
    if kind == QuoteProduct && product.Some? then
      base.(productName := Some(product.value.name), productCode := Some(product.value.code),
            productPrice := Some(product.value.price), quantity := Some(form.quantity))
    else if kind == QuoteGeneral then
      base.(quantity := Some(form.quantity))
    else if kind == Services then
      base.(contactPreference := Some(form.contactPreference))
    else
      base
  }

  /** `getDialogTitle` */
  function DialogTitle(kind: Kind): (t: string)
    ensures kind == QuoteGeneral ==> t == "Solicitar Cotización"
    ensures kind == QuoteProduct ==> t == "Cotizar Producto"
    ensures kind == Services ==> t == "Conozca Nuestros Servicios"
    ensures t == FallbackTitle <==> !KnownKind(kind)
  {
    match kind
    case QuoteGeneral => "Solicitar Cotización"
    case QuoteProduct => "Cotizar Producto"
    case Services => "Conozca Nuestros Servicios"
    case Other(_) => FallbackTitle
  }

  /** `getDialogDescription` */
  function DialogDescription(kind: Kind): (t: string)
    ensures kind == QuoteGeneral ==> t == "Complete el formulario para recibir una cotización personalizada"
    ensures kind == QuoteProduct ==> t == "Complete el formulario para cotizar este producto"
    ensures kind == Services ==> t == "Complete el formulario y le contactaremos según su preferencia"
    ensures t == FallbackDescription <==> !KnownKind(kind)
  {
    match kind
    case QuoteGeneral => "Complete el formulario para recibir una cotización personalizada"
    case QuoteProduct => "Complete el formulario para cotizar este producto"
    case Services => "Complete el formulario y le contactaremos según su preferencia"
    case Other(_) => FallbackDescription
  }

  /** A product quote request names the product in its subject; without a product the subject ends in "undefined". */
  lemma ProductSubject(product: Option<FormProduct>, form: FormFields)
    ensures var s := Subject(BuildEmailData(QuoteProduct, product, form));
      s == ProductSubjectPrefix + (if product.Some? then product.value.name else "undefined")
  {
  }

  /** Whatever the form type, the composed email shows every client field the form holds. */
  lemma ComposedBodyShowsForm(kind: Kind, product: Option<FormProduct>, form: FormFields)
    requires KnownKind(kind)
    ensures var b := Body(BuildEmailData(kind, product, form));
      && Contains(b, Field("Nombre", form.clientName)) && Contains(b, Field("Email", form.clientEmail))
      && Contains(b, Field("Teléfono", form.clientPhone)) && Contains(b, Field("Empresa", form.company))
    ensures var b := Body(BuildEmailData(kind, product, form));
      && Contains(b, form.clientName) && Contains(b, form.clientEmail) && Contains(b, form.clientPhone)
      && Contains(b, form.company) && Contains(b, form.message)
  {
    BodyShowsClient(BuildEmailData(kind, product, form));
  }

  /** How the request ended: an ok response, an error response, or a failed fetch. */
  datatype Outcome = Delivered | Refused | Unreachable

  /** A request as `fetch` saw it, with the value of `isSubmitting` at that moment. */
  datatype SentRequest = SentRequest(data: EmailData, whileSubmitting: bool)

  class ContactDialog {
    const kind: Kind
    const product: Option<FormProduct>
    var form: FormFields
    var isSubmitting: bool
    /** How many times `onClose` has been called. */
    var closeCalls: nat
    /** The requests posted to `/api/send-email`, oldest first. */
    var sent: seq<SentRequest>

    constructor (kind: Kind, product: Option<FormProduct>)
      ensures this.kind == kind && this.product == product
      ensures form == EmptyForm && !isSubmitting && closeCalls == 0 && sent == []
    {
      this.kind := kind;
      this.product := product;
      form := EmptyForm;
      isSubmitting := false;
      closeCalls := 0;
      sent := [];
    }

    /** `handleSubmit`, with the request's outcome as a parameter. */
    method Submit(outcome: Outcome)
      modifies this
      ensures sent == old(sent) + [SentRequest(BuildEmailData(kind, product, old(form)), true)]
      ensures !isSubmitting
      ensures outcome == Delivered ==> closeCalls == old(closeCalls) + 1 && form == EmptyForm
      ensures outcome != Delivered ==> closeCalls == old(closeCalls) && form == old(form)
    {
      isSubmitting := true;
      var data := BuildEmailData(kind, product, form);
      sent := sent + [SentRequest(data, isSubmitting)];
      if outcome == Delivered {
        closeCalls := closeCalls + 1;
        form := EmptyForm;
      }
      isSubmitting := false;
    }
  }
}
