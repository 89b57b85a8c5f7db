/** Guest checkout in the web shop: the e-mail pattern, the fixed address a guest is given, the
    one-photographer rule on the cart, and the three places that turn a guest's e-mail into the
    order's customer (the address form, the e-mail endpoint and the payment transaction). */
module CheckoutGuest {
  import opened Wrappers
  import Text
  import Orm
  import Partners
  import SaleOrders

  // ---------------------------------------------------------------------------------------
  // The e-mail pattern `^[^@\s]+@[^@\s]+\.[^@\s]+$`

  /** A character of `[^@\s]`. */
  predicate EmailChar(c: char) {
    c != '@' && !Text.IsSpace(c)
  }

  /** A non-empty run of `[^@\s]`. */
  predicate Part(s: string) {
    s != [] && forall i :: 0 <= i < |s| ==> EmailChar(s[i])
  }

  /** The pattern read as the regular expression composes it: three runs without '@' or
      whitespace, joined by '@' and by '.'. */
  ghost predicate EmailShape(s: string) {
    exists a, b, c :: Part(a) && Part(b) && Part(c) && s == a + "@" + b + "." + c
  }

  /** The domain after the '@': a '.' with at least one character on each side. */
  predicate DomainOk(d: string) {
    exists p :: 0 < p < |d| - 1 && d[p] == '.' && Part(d[..p]) && Part(d[p + 1..])
  }

  /** The pattern read character by character: one '@', not first, every other character
      outside `[@\s]`, and a valid domain after it. */
  predicate IsEmail(s: string) {
    exists k :: 0 < k < |s| && s[k] == '@' && Part(s[..k]) && DomainOk(s[k + 1..])
  }

  /** `EMAIL_RE.match(s)`: Python's `$` also matches just before a final newline. */
  predicate EmailMatch(s: string) {
    IsEmail(s) || (s != [] && s[|s| - 1] == '\n' && IsEmail(s[..|s| - 1]))
  }

  /** A sequence cut around one of its characters. */
  lemma CutAt(s: string, k: nat)
    requires k < |s|
    ensures s == s[..k] + [s[k]] + s[k + 1..]
  {
  }

  /** The pieces of a joined address, read back by position. */
  lemma JoinedParts(a: string, b: string, c: string)
    ensures var s := a + "@" + b + "." + c;
      && s[..|a|] == a && s[|a|] == '@'
      && s[|a| + 1..] == b + "." + c
  {
  }

  lemma JoinedDomain(b: string, c: string)
    ensures var d := b + "." + c;
      d[..|b|] == b && d[|b|] == '.' && d[|b| + 1..] == c
  {
  }

  /** A string cut at its '@' and again at the domain's '.'. */
  lemma Rejoin(s: string, k: nat, p: nat)
    requires k < |s| && s[k] == '@' && p < |s[k + 1..]| && s[k + 1..][p] == '.'
    ensures var d := s[k + 1..]; s == s[..k] + "@" + d[..p] + "." + d[p + 1..]
  {
    var d := s[k + 1..];
    CutAt(s, k);
    CutAt(d, p);
  }

  lemma IsEmailToShape(s: string)
    requires IsEmail(s)
    ensures EmailShape(s)
  {
    var k :| 0 < k < |s| && s[k] == '@' && Part(s[..k]) && DomainOk(s[k + 1..]);
    var d := s[k + 1..];
    var p :| 0 < p < |d| - 1 && d[p] == '.' && Part(d[..p]) && Part(d[p + 1..]);
    Rejoin(s, k, p);
    ShapeOf(s, s[..k], d[..p], d[p + 1..]);
  }

  lemma ShapeOf(s: string, a: string, b: string, c: string)
    requires Part(a) && Part(b) && Part(c) && s == a + "@" + b + "." + c
    ensures EmailShape(s)
  {
  }

  lemma ShapeToIsEmail(s: string)
    requires EmailShape(s)
    ensures IsEmail(s)
  {
    var a, b, c :| Part(a) && Part(b) && Part(c) && s == a + "@" + b + "." + c;
    JoinedParts(a, b, c);
    JoinedDomain(b, c);
    assert DomainOk(s[|a| + 1..]);
  }

  /** The character-by-character reading is the regular expression's. */
  lemma IsEmailIsShape(s: string)
    ensures IsEmail(s) <==> EmailShape(s)
  {
    if IsEmail(s) {
      IsEmailToShape(s);
    }
    if EmailShape(s) {
      ShapeToIsEmail(s);
    }
  }

  /** A stripped value never ends in a newline, so for it the pattern is the plain reading. */
  lemma StrippedMatch(x: string)
    ensures EmailMatch(Text.Strip(x)) <==> IsEmail(Text.Strip(x))
  {
  }

  const GuestEmail := "guest@example.com"

  /** The stand-in address the address form falls back to matches the pattern. */
  lemma GuestEmailMatches()
    ensures IsEmail(GuestEmail) && EmailMatch(GuestEmail)
  {
    assert Part("guest") && Part("example") && Part("com");
    ShapeOf(GuestEmail, "guest", "example", "com");
    IsEmailIsShape(GuestEmail);
  }

  // ---------------------------------------------------------------------------------------
  // Guest address

  /** The keys of the address form the guest defaults touch, and any other key. */
  datatype AddressKey =
    | Name | CompanyName | City | Zip | Phone | Vat | Street | Street2 | Email
    | AfipResponsibility | IdentificationType | Country | State | OtherKey(key: string)

  /** A posted address value: text, or the id of a related record. */
  datatype AddressValue = Text(text: string) | Ref(id: nat)

  /** The fixed address of a guest, key by key. */
  function GuestDefault(k: AddressKey): Option<string> {
    match k
    case Name => Some("Guest Buyer")
    case CompanyName => Some("Guest Buyer")
    case City => Some("Rosario")
    case Zip => Some("2000")
    case Phone => Some("2477610123")
    case Vat => Some("43026589")
    case Street => Some("Calle falsa 123")
    case Street2 => Some("4-1")
    case _ => None
  }

  /** The records the guest address points to, as the searches found them (`None` when a search
      found nothing): final-consumer responsibility, DNI, Argentina and Santa Fe. */
  datatype Lookups = Lookups(afip: Option<nat>, dni: Option<nat>, country: Option<nat>, state: Option<nat>)

  function LookupFor(k: AddressKey, lk: Lookups): Option<nat> {
    match k
    case AfipResponsibility => lk.afip
    case IdentificationType => lk.dni
    case Country => lk.country
    case State => lk.state
    case _ => None
  }

  /** The posted e-mail, stripped (`""` when absent or not text). */
  function PostedEmail(values: map<AddressKey, AddressValue>): string {
    Text.Strip(if Email in values && values[Email].Text? then values[Email].text else "")
  }

  /** The value a guest's address holds under `k`: the fixed default, else the record found
      for it, else what was posted. */
  function Forced(values: map<AddressKey, AddressValue>, lk: Lookups, k: AddressKey): Option<AddressValue> {
    if GuestDefault(k).Some? then Some(Text(GuestDefault(k).value))
    else if LookupFor(k, lk).Some? then Some(Ref(LookupFor(k, lk).value))
    else if k in values then Some(values[k])
    else None
  }

  /** The address values after a guest's defaults are forced into them. */
  function WithGuestDefaults(values: map<AddressKey, AddressValue>, lk: Lookups): (r: map<AddressKey, AddressValue>)
    ensures forall k :: k in r <==> Forced(values, lk, k).Some?
    ensures forall k :: k in r ==> r[k] == Forced(values, lk, k).value
  {
    var keys := values.Keys + {Name, CompanyName, City, Zip, Phone, Vat, Street, Street2,
                               AfipResponsibility, IdentificationType, Country, State};
    map k | k in keys && Forced(values, lk, k).Some? :: Forced(values, lk, k).value
  }

  /** Every default key holds its fixed text, every key with a record found points to it, and
      every other posted value is kept as it was. */
  lemma GuestDefaultsForced(values: map<AddressKey, AddressValue>, lk: Lookups)
    ensures var r := WithGuestDefaults(values, lk);
      && (forall k :: GuestDefault(k).Some? ==> k in r && r[k] == Text(GuestDefault(k).value))
      && (forall k :: LookupFor(k, lk).Some? ==> k in r && r[k] == Ref(LookupFor(k, lk).value))
      && (forall k :: GuestDefault(k).None? && LookupFor(k, lk).None? ==>
            (k in r <==> k in values) && (k in r ==> r[k] == values[k]))
  {
    forall k | LookupFor(k, lk).Some?
      ensures GuestDefault(k).None?
    {
    }
  }

  /** What the address check hands on: a rejection with the fields in error, or the inherited
      check with its required fields and the billing flag. */
  datatype AddressVerdict =
    | Rejected(errorFields: set<AddressKey>)
    | Delegated(requiredFields: string, deliveryAsBilling: bool)

  /** `_validate_address_values`: a guest's address values are overwritten with the fixed
      defaults (in place, so also when the check then fails); a guest's e-mail must match, and
      then only the e-mail is required and the delivery address is the billing one. */
  function ValidateAddress(values: map<AddressKey, AddressValue>, isGuest: bool, lk: Lookups,
                           required: string, deliveryAsBilling: bool)
    : (map<AddressKey, AddressValue>, AddressVerdict)
  {
    if !isGuest then (values, Delegated(required, deliveryAsBilling))
    else
      var forced := WithGuestDefaults(values, lk);
      var email := PostedEmail(forced);
      if email == "" || !EmailMatch(email) then (forced, Rejected({Email}))
      else (forced, Delegated("email", true))
  }

  /** A guest is rejected exactly when the posted e-mail does not match, only on the e-mail
      field; the e-mail itself is never overwritten; other customers pass through untouched. */
  lemma AddressRules(values: map<AddressKey, AddressValue>, isGuest: bool, lk: Lookups, required: string,
                     deliveryAsBilling: bool)
    ensures var (v, verdict) := ValidateAddress(values, isGuest, lk, required, deliveryAsBilling);
      && (!isGuest ==> v == values && verdict == Delegated(required, deliveryAsBilling))
      && (isGuest ==> PostedEmail(v) == PostedEmail(values))
      && (isGuest ==> (verdict.Rejected? <==> !IsEmail(PostedEmail(values))))
      && (verdict.Rejected? ==> verdict.errorFields == {Email})
      && (isGuest && verdict.Delegated? ==> verdict == Delegated("email", true))
  {
    if isGuest {
      var forced := WithGuestDefaults(values, lk);
      assert GuestDefault(Email).None? && LookupFor(Email, lk).None?;
      assert PostedEmail(forced) == PostedEmail(values);
      StrippedMatch(if Email in values && values[Email].Text? then values[Email].text else "");
    }
  }

  // ---------------------------------------------------------------------------------------
  // One photographer per cart

  /** `_fotoapp_validate_single_photographer`: more than one photographer among the lines. */
  predicate MixedCart(o: SaleOrders.Order) {
    |SaleOrders.Photographers(o.lines)| > 1
  }

  /** Lines `i` and `j` are photo lines of two different photographers. */
  predicate DifferAt(lines: seq<SaleOrders.OrderLine>, i: int, j: int) {
    0 <= i < |lines| && 0 <= j < |lines| && lines[i].photographer.Some? && lines[j].photographer.Some?
    && lines[i].photographer != lines[j].photographer
  }

  lemma TwoDistinct(ps: seq<nat>, p: nat, q: nat)
    requires p in ps && q in ps && p != q
    ensures |ps| > 1
  {
  }

  lemma MixedCartIff(o: SaleOrders.Order)
    ensures MixedCart(o) <==> exists i, j :: DifferAt(o.lines, i, j)
  {
    var ps := SaleOrders.Photographers(o.lines);
    if |ps| > 1 {
      assert ps[0] in ps && ps[1] in ps;
      var i :| 0 <= i < |o.lines| && o.lines[i].photographer == Some(ps[0]);
      var j :| 0 <= j < |o.lines| && o.lines[j].photographer == Some(ps[1]);
      assert DifferAt(o.lines, i, j);
    }
    if exists i, j :: DifferAt(o.lines, i, j) {
      var i, j :| DifferAt(o.lines, i, j);
      var p, q := o.lines[i].photographer.value, o.lines[j].photographer.value;
      assert p in ps && q in ps;
      TwoDistinct(ps, p, q);
    }
  }

  datatype CartCheck = Proceed | InheritedRedirect | BackToCart(warning: string)

  const MixedCartWarning := "No está permitido agregar fotos de varios fotógrafos al carrito. Separá los carritos por favor."

  /** `_check_cart`: the inherited check first, then the one-photographer rule. */
  function CheckCart(inheritedRedirects: bool, o: SaleOrders.Order): (r: CartCheck)
    ensures inheritedRedirects ==> r == InheritedRedirect
    ensures !inheritedRedirects ==> (r.BackToCart? <==> MixedCart(o))
    ensures r.BackToCart? ==> r.warning == MixedCartWarning
  {
    if inheritedRedirects then InheritedRedirect
    else if MixedCart(o) then BackToCart(MixedCartWarning)
    else Proceed
  }

  // ---------------------------------------------------------------------------------------
  // The guest's customer record

  /** `res.partner.search([('email', '=', e), ('id', '!=', website)], limit=1)` over the
      partners in the model's default order (`ranked`). */
  function FindByEmail(ranked: seq<nat>, rows: map<nat, Partners.Partner>, email: string, website: Option<nat>)
    : (r: Option<nat>)
    ensures r.Some? ==> r.value in ranked && r.value in rows && rows[r.value].email == email && Some(r.value) != website
    ensures r.None? <==> forall k :: k in ranked && k in rows ==> rows[k].email != email || Some(k) == website
  {
    if ranked == [] then None
    else
      var k := ranked[0];
      if k in rows && rows[k].email == email && Some(k) != website then Some(k)
      else
        var rest := FindByEmail(ranked[1..], rows, email, website);
        assert forall x :: x in ranked <==> x == k || x in ranked[1..];
        rest
  }

  /** A new contact record with the given name and e-mail; its commercial partner is itself. */
  function NewContact(name: string, email: string, id: nat): (r: Partners.Partner)
    ensures r.name == name && r.email == email && r.commercialPartner == id && !r.isPhotographer
  {
    Partners.Partner(name, email, "", id, false, "", "", "", "", "", "", "", None, 0, 0.0, None, None,
                     0, 0, 0, 0, 0.0, "", "", None, Partners.NotConnected)
  }

  /** The order after the guest's contact becomes its customer, invoice and delivery contact. */
  function WithCustomer(o: SaleOrders.Order, pid: nat, commercial: nat, email: string): (r: SaleOrders.Order)
    ensures r.partner == pid && r.commercialPartner == commercial && r.deliveryEmail == email
    ensures r.lines == o.lines && r.state == o.state && r.photographer == o.photographer
  {
    o.(partner := pid, commercialPartner := commercial, deliveryEmail := email)
  }

  /** The partner with the e-mail other than the website's own, found or created under `name`.
      The partner found already has that e-mail, so writing it back changes nothing. */
  method ResolveContact(partners: Orm.Table<Partners.Partner>, ranked: seq<nat>, email: string, name: string,
                        website: Option<nat>)
    returns (pid: nat)
    requires partners.Valid()
    requires website.Some? ==> website.value in partners.rows
    requires forall k :: k in partners.rows ==> k in ranked
    modifies partners
    ensures partners.Valid()
    ensures pid in partners.rows && partners.rows[pid].email == email && Some(pid) != website
    ensures pid in old(partners.rows) <==>
      exists k :: k in old(partners.rows) && old(partners.rows)[k].email == email && Some(k) != website
    ensures FindByEmail(ranked, old(partners.rows), email, website).Some? ==>
      pid == FindByEmail(ranked, old(partners.rows), email, website).value && partners.rows == old(partners.rows)
    ensures FindByEmail(ranked, old(partners.rows), email, website).None? ==>
      pid == old(partners.nextId) && partners.rows == old(partners.rows)[pid := NewContact(name, email, pid)]
  {
    var found := FindByEmail(ranked, partners.rows, email, website);
    if found.Some? {
      pid := found.value;
    } else {
      pid := partners.Create(NewContact(name, email, partners.nextId));
    }
  }

  /** The e-mail the address form settles on: the posted one, else the customer's, and the
      stand-in address when that is missing or does not match. */
  function SubmitEmail(posted: string, customerEmail: string): (r: string)
    ensures EmailMatch(r)
    ensures var e := if Text.Strip(posted) != "" then Text.Strip(posted) else customerEmail;
      r == if e != "" && EmailMatch(e) then e else GuestEmail
  {
    GuestEmailMatches();
    var e := if Text.Strip(posted) != "" then Text.Strip(posted) else customerEmail;
    if e == "" || !EmailMatch(e) then GuestEmail else e
  }

  /** `shop_address_submit` for a guest: the settled e-mail's contact (found or created as
      'Guest Buyer') becomes the order's customer, and the e-mail its delivery address. */
  method SubmitGuestAddress(partners: Orm.Table<Partners.Partner>, orders: Orm.Table<SaleOrders.Order>,
                            order: Option<nat>, posted: string, ranked: seq<nat>, website: Option<nat>)
    returns (email: string, pid: nat)
    requires partners.Valid()
    requires website.Some? ==> website.value in partners.rows
    requires order.Some? ==> order.value in orders.rows && orders.rows[order.value].partner in partners.rows
    requires forall k :: k in partners.rows ==> k in ranked
    modifies partners, orders
    ensures partners.Valid()
    ensures var customerEmail := if order.Some? then old(partners.rows)[old(orders.rows)[order.value].partner].email else "";
      email == SubmitEmail(posted, customerEmail)
    ensures EmailMatch(email)
    ensures pid in partners.rows && partners.rows[pid].email == email && Some(pid) != website
    ensures FindByEmail(ranked, old(partners.rows), email, website).None? ==>
      partners.rows == old(partners.rows)[pid := NewContact("Guest Buyer", email, pid)]
    ensures FindByEmail(ranked, old(partners.rows), email, website).Some? ==> partners.rows == old(partners.rows)
    ensures order.None? ==> orders.rows == old(orders.rows)
    ensures order.Some? ==> orders.rows == old(orders.rows)[order.value :=
      WithCustomer(old(orders.rows)[order.value], pid, partners.rows[pid].commercialPartner, email)]
  {
    var customerEmail := if order.Some? then partners.rows[orders.rows[order.value].partner].email else "";
    email := SubmitEmail(posted, customerEmail);
    pid := ResolveContact(partners, ranked, email, "Guest Buyer", website);
    if order.Some? {
      orders.rows := orders.rows[order.value :=
        WithCustomer(orders.rows[order.value], pid, partners.rows[pid].commercialPartner, email)];
    }
  }

  /** The e-mail the endpoint reads: the keyword argument, else the JSON body's `email`, else
      its `params.email` (`""` for each one absent). */
  function RequestedEmail(keyword: string, bodyEmail: string, paramsEmail: string): (r: string)
    ensures keyword != "" ==> r == keyword
    ensures keyword == "" && bodyEmail != "" ==> r == bodyEmail
    ensures keyword == "" && bodyEmail == "" ==> r == paramsEmail
  {
    if keyword != "" then keyword else if bodyEmail != "" then bodyEmail else paramsEmail
  }

  /** The e-mail `fotoapp_set_guest_email` reads, as written: the JSON payload is bound only when
      the keyword argument is empty, and the log line after it reads the payload, so a non-empty
      keyword raises (`None`). Without a keyword it agrees with `RequestedEmail`. */
  function GuestEmailAsWritten(keyword: string, bodyEmail: string, paramsEmail: string): (r: Option<string>)
    ensures r.None? <==> keyword != ""
    ensures r.Some? ==> r.value == RequestedEmail(keyword, bodyEmail, paramsEmail)
  {
    if keyword != "" then None else Some(if bodyEmail != "" then bodyEmail else paramsEmail)
  }

  /** A caller that passes a well-formed e-mail as the keyword argument gets an error instead of
      the e-mail being recorded, where the intended reading takes that keyword first. */
  lemma KeywordEmailRaises()
    ensures GuestEmailAsWritten(GuestEmail, "", "").None?
    ensures RequestedEmail(GuestEmail, "", "") == GuestEmail && EmailMatch(GuestEmail)
  {
    GuestEmailMatches();
  }

  /** The answer of the e-mail endpoint: `{'ok': ok}`, or the error raised before anything is written. */
  datatype GuestEmailReply = Replied(ok: bool) | Raised

  /** `fotoapp_set_guest_email`, as written: a keyword e-mail raises; otherwise, with a cart and a
      matching e-mail from the payload, that e-mail's contact (found, or created under the e-mail
      as name) becomes the cart's customer; in every other case nothing changes. */
  method SetGuestEmail(partners: Orm.Table<Partners.Partner>, orders: Orm.Table<SaleOrders.Order>,
                       order: Option<nat>, keyword: string, bodyEmail: string, paramsEmail: string,
                       ranked: seq<nat>, website: Option<nat>)
    returns (reply: GuestEmailReply)
    requires partners.Valid()
    requires website.Some? ==> website.value in partners.rows
    requires order.Some? ==> order.value in orders.rows
    requires forall k :: k in partners.rows ==> k in ranked
    modifies partners, orders
    ensures partners.Valid()
    ensures reply.Raised? <==> GuestEmailAsWritten(keyword, bodyEmail, paramsEmail).None?
    ensures var e := Text.Strip(RequestedEmail(keyword, bodyEmail, paramsEmail));
      reply == Replied(true) <==> keyword == "" && order.Some? && e != "" && IsEmail(e)
    ensures reply != Replied(true) ==> partners.rows == old(partners.rows) && orders.rows == old(orders.rows)
    ensures reply == Replied(true) ==>
      var e := Text.Strip(RequestedEmail(keyword, bodyEmail, paramsEmail));
      var found := FindByEmail(ranked, old(partners.rows), e, website);
      var pid := if found.Some? then found.value else old(partners.nextId);
      && partners.rows == (if found.Some? then old(partners.rows) else old(partners.rows)[pid := NewContact(e, e, pid)])
      && partners.rows[pid].email == e && Some(pid) != website
      && orders.rows == old(orders.rows)[order.value :=
           WithCustomer(old(orders.rows)[order.value], pid, partners.rows[pid].commercialPartner, e)]
  {
    var asked := GuestEmailAsWritten(keyword, bodyEmail, paramsEmail);
    if asked.None? {
      return Raised;
    }
    var e := Text.Strip(asked.value);
    StrippedMatch(asked.value);
    if order.None? || e == "" || !EmailMatch(e) {
      return Replied(false);
    }
    var pid := ResolveContact(partners, ranked, e, e, website);
    orders.rows := orders.rows[order.value := WithCustomer(orders.rows[order.value], pid, partners.rows[pid].commercialPartner, e)];
    reply := Replied(true);
  }

  /** The customer's e-mail the payment step may fall back to: the order's customer's, unless
      that customer is the website's own public partner. */
  function CustomerFallback(customer: nat, customerEmail: string, website: Option<nat>): (r: string)
    ensures website == Some(customer) ==> r == ""
    ensures website != Some(customer) ==> r == Text.Strip(customerEmail)
  {
    if website.Some? && customer == website.value then "" else Text.Strip(customerEmail)
  }

  /** The e-mail of `shop_payment_transaction`: the `guest_email` keyword, else the form's
      `guest_email` (whichever is non-empty first, then stripped), else the order's delivery
      e-mail, else the customer fallback. */
  function TransactionEmail(keyword: string, form: string, delivery: string, fallback: string): string {
    var given := Text.Strip(if keyword != "" then keyword else form);
    if given != "" then given else if Text.Strip(delivery) != "" then Text.Strip(delivery) else fallback
  }

  /** The order of precedence of the payment e-mail. */
  lemma TransactionEmailOrder(keyword: string, form: string, delivery: string, fallback: string)
    ensures var r := TransactionEmail(keyword, form, delivery, fallback);
      && (Text.Strip(keyword) != "" ==> r == Text.Strip(keyword))
      && (keyword == "" && Text.Strip(form) != "" ==> r == Text.Strip(form))
      && (Text.Strip(if keyword != "" then keyword else form) == "" && Text.Strip(delivery) != "" ==>
            r == Text.Strip(delivery))
      && (Text.Strip(if keyword != "" then keyword else form) == "" && Text.Strip(delivery) == "" ==> r == fallback)
  {
  }

  datatype TransactionOutcome = InvalidEmail | Proceeded(email: string)

  /** `shop_payment_transaction`: with an existing order and a matching e-mail, the e-mail's
      contact becomes the customer and the inherited transaction flow runs; otherwise an error
      comes back and nothing changes. */
  method PaymentTransaction(partners: Orm.Table<Partners.Partner>, orders: Orm.Table<SaleOrders.Order>,
                            order: Option<nat>, keyword: string, form: string, ranked: seq<nat>,
                            website: Option<nat>)
    returns (outcome: TransactionOutcome)
    requires partners.Valid()
    requires website.Some? ==> website.value in partners.rows
    requires order.Some? ==> order.value in orders.rows && orders.rows[order.value].partner in partners.rows
    requires forall k :: k in partners.rows ==> k in ranked
    modifies partners, orders
    ensures partners.Valid()
    ensures var email := if order.None? then Text.Strip(if keyword != "" then keyword else form)
      else
        var o := old(orders.rows)[order.value];
        TransactionEmail(keyword, form, o.deliveryEmail,
                         CustomerFallback(o.partner, old(partners.rows)[o.partner].email, website));
      outcome == if order.Some? && email != "" && EmailMatch(email) then Proceeded(email) else InvalidEmail
    ensures outcome.InvalidEmail? ==> partners.rows == old(partners.rows) && orders.rows == old(orders.rows)
    ensures outcome.Proceeded? ==>
      var e := outcome.email;
      var found := FindByEmail(ranked, old(partners.rows), e, website);
      var pid := if found.Some? then found.value else old(partners.nextId);
      && order.Some? && EmailMatch(e)
      && partners.rows == (if found.Some? then old(partners.rows) else old(partners.rows)[pid := NewContact(e, e, pid)])
      && partners.rows[pid].email == e && Some(pid) != website
      && orders.rows == old(orders.rows)[order.value :=
           WithCustomer(old(orders.rows)[order.value], pid, partners.rows[pid].commercialPartner, e)]
  {
    var email;
    if order.None? {
      email := Text.Strip(if keyword != "" then keyword else form);
    } else {
      var o := orders.rows[order.value];
      email := TransactionEmail(keyword, form, o.deliveryEmail, CustomerFallback(o.partner, partners.rows[o.partner].email, website));
    }
    if order.None? || email == "" || !EmailMatch(email) {
      return InvalidEmail;
    }
    var pid := ResolveContact(partners, ranked, email, email, website);
    orders.rows := orders.rows[order.value := WithCustomer(orders.rows[order.value], pid, partners.rows[pid].commercialPartner, email)];
    outcome := Proceeded(email);
  }
}
