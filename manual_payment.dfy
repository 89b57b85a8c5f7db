/** The manual-payment page (`/fotoapp/payment/manual`): instead of paying online, the buyer is
    shown how to contact the cart's photographer and pay by transfer. */
module ManualPayment {
  import opened Wrappers
  import Text
  import SaleOrders
  import Partners

  /** The photographer of a cart: more than one is refused, none is reported. */
  datatype CartPhotographer = Several | NoPhotographer | One(partner: nat)

  /** `_get_cart_photographer`: the distinct photographers of the photo lines. */
  function CartPhotographerOf(o: SaleOrders.Order): (r: CartPhotographer)
    ensures r.Several? <==> |SaleOrders.Photographers(o.lines)| > 1
    ensures r.NoPhotographer? <==> forall i :: 0 <= i < |o.lines| ==> o.lines[i].photographer.None?
    ensures r.One? ==>
      && (exists i :: 0 <= i < |o.lines| && o.lines[i].photographer == Some(r.partner))
      && forall i :: 0 <= i < |o.lines| && o.lines[i].photographer.Some? ==> o.lines[i].photographer == Some(r.partner)
  {
    var ps := SaleOrders.Photographers(o.lines);
    if |ps| > 1 then
      assert ps[0] in ps;
      Several
    else if ps == [] then
      NoPhotographer
    else
      assert forall i :: 0 <= i < |o.lines| && o.lines[i].photographer.Some? ==> o.lines[i].photographer == Some(ps[0]) by {
        forall i | 0 <= i < |o.lines| && o.lines[i].photographer.Some?
          ensures o.lines[i].photographer == Some(ps[0])
        {
          assert o.lines[i].photographer.value in ps;
        }
      }
      One(ps[0])
  }

  const NotInformed := "No informado"

  /** `_safe`: a missing value is shown as "No informado". */
  function Safe(value: string): (r: string)
    ensures r != []
    ensures value != [] ==> r == value
    ensures value == [] ==> r == NotInformed
  {
    if value != [] then value else NotInformed
  }

  /** The WhatsApp number: `phone_whatsapp`, else `mobile`, else `phone`. */
  function Whatsapp(p: Partners.Partner): string {
    Text.Or(Text.Or(p.phoneWhatsapp, p.mobile), p.phone)
  }

  /** The transfer alias: `bank_alias`, else `payout_account`. */
  function Alias(p: Partners.Partner): string {
    Text.Or(p.bankAlias, p.payoutAccount)
  }

  /** The contact card the page renders. */
  datatype ContactValues = ContactValues(
    photographer: nat,
    contactName: string,
    instagram: string,
    whatsapp: string,
    cbuCvu: string,
    alias: string,
    galleryUrl: string)

  function ContactOf(id: nat, p: Partners.Partner): ContactValues {
    ContactValues(id, Safe(p.name), Safe(p.instagramAccount), Safe(Whatsapp(p)), Safe(p.cbuCvu), Safe(Alias(p)),
                  "/galeria")
  }

  const EmptyCartWarning := "Tu carrito está vacío. Agregá fotos para continuar."
  const SeveralPhotographersWarning :=
    "No está permitido agregar fotos de varios fotógrafos al carrito. Separá los carritos por favor."
  const NoPhotographerWarning :=
    "No encontramos un fotógrafo asociado al carrito. Volvé a la galería para elegir fotos."

  /** The page: back to the cart with a warning, or the photographer's contact card. */
  datatype ManualOutcome = BackToCart(warning: string) | Contact(values: ContactValues)

  /** `manual_payment` on the session's cart (`None` when there is none). */
  function ManualPaymentPage(cart: Option<SaleOrders.Order>, partners: map<nat, Partners.Partner>): (r: ManualOutcome)
    requires cart.Some? ==>
      forall i :: 0 <= i < |cart.value.lines| && cart.value.lines[i].photographer.Some? ==>
        cart.value.lines[i].photographer.value in partners
    ensures cart.None? || cart.value.lines == [] ==> r == BackToCart(EmptyCartWarning)
    ensures cart.Some? && cart.value.lines != [] ==>
      (r == BackToCart(SeveralPhotographersWarning) <==> |SaleOrders.Photographers(cart.value.lines)| > 1)
    ensures cart.Some? && cart.value.lines != [] ==>
      (r == BackToCart(NoPhotographerWarning) <==>
         forall i :: 0 <= i < |cart.value.lines| ==> cart.value.lines[i].photographer.None?)
    ensures r.Contact? ==>
      && cart.Some? && r.values.photographer in partners
      && forall i :: 0 <= i < |cart.value.lines| && cart.value.lines[i].photographer.Some? ==>
           cart.value.lines[i].photographer == Some(r.values.photographer)
  {
    if cart.None? || cart.value.lines == [] then BackToCart(EmptyCartWarning)
    else
      match CartPhotographerOf(cart.value)
      case Several => BackToCart(SeveralPhotographersWarning)
      case NoPhotographer => BackToCart(NoPhotographerWarning)
      case One(id) => Contact(ContactOf(id, partners[id]))
  }

  /** The card shows the number and alias in their fallback order, and never an empty field. */
  lemma ContactFallbacks(id: nat, p: Partners.Partner)
    ensures var c := ContactOf(id, p);
      && c.contactName != [] && c.instagram != [] && c.whatsapp != [] && c.cbuCvu != [] && c.alias != []
      && (p.phoneWhatsapp != [] ==> c.whatsapp == p.phoneWhatsapp)
      && (p.phoneWhatsapp == [] && p.mobile != [] ==> c.whatsapp == p.mobile)
      && (p.phoneWhatsapp == [] && p.mobile == [] && p.phone != [] ==> c.whatsapp == p.phone)
      && (p.phoneWhatsapp == [] && p.mobile == [] && p.phone == [] ==> c.whatsapp == NotInformed)
      && (p.bankAlias != [] ==> c.alias == p.bankAlias)
      && (p.bankAlias == [] && p.payoutAccount != [] ==> c.alias == p.payoutAccount)
      && (p.bankAlias == [] && p.payoutAccount == [] ==> c.alias == NotInformed)
  {
  }
}
