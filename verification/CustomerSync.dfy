/** Matching a WooCommerce customer to three Odoo partners: the contact and its two address children. */
module CustomerSync {
  import opened Outcomes
  import opened Tables
  import opened OdooApi
  import Emails

  /** Outcomes of the calls made for one child contact.  The write only refreshes address fields. */
  datatype ChildPlan = ChildPlan(search: Option<Fault>, preferred: int, write: Option<Fault>, create: Call)

  datatype CustomerPlan = CustomerPlan(
    search: Option<Fault>,
    preferred: int,
    create: Call,
    invoice: ChildPlan,
    delivery: ChildPlan)

  datatype ParentReply = ParentReply(odoo: Odoo, customers: map<string, Id>, got: Result<Id>)

  datatype PartnersReply = PartnersReply(odoo: Odoo, customers: map<string, Id>, got: Result<PartnerIds>)

  // ---------- what the service does ----------

  function FindOrCreateParent(odoo: Odoo, customers: map<string, Id>, email: string, plan: CustomerPlan): ParentReply {
    if email in customers then ParentReply(odoo, customers, Done(customers[email]))
    else if plan.search.Some? then ParentReply(odoo, customers, Raised(plan.search.value))
    else match Chosen(Contacts(odoo, email), plan.preferred)
      case Some(id) => ParentReply(odoo, customers[email := id], Done(id))
      case None =>
        var reply := CreatePartner(odoo, Partner(Contact, email, None), plan.create);
        match reply.got
        case Done(id) => ParentReply(reply.odoo, customers[email := id], Done(id))
        case Raised(f) => ParentReply(reply.odoo, customers, Raised(f))
  }

  /** Every fault on a child contact is re-raised as a ValueError. */
  function GetOrCreateChild(odoo: Odoo, parent: Id, kind: PartnerKind, email: string, plan: ChildPlan): Reply {
    if plan.search.Some? then Reply(odoo, Raised(Other))
    else match Chosen(Children(odoo, parent, kind), plan.preferred)
      case Some(id) => Reply(odoo, if plan.write.Some? then Raised(Other) else Done(id))
      case None =>
        var reply := CreatePartner(odoo, Partner(kind, email, Some(parent)), plan.create);
        reply.(got := if reply.got.Raised? then Raised(Other) else reply.got)
  }

  function GetOrCreatePartner(odoo: Odoo, customers: map<string, Id>, rawEmail: string, plan: CustomerPlan): PartnersReply {
    var email := Emails.Normalise(rawEmail);
    if email == "" then PartnersReply(odoo, customers, Raised(Other))
    else
      var parent := FindOrCreateParent(odoo, customers, email, plan);
      if parent.got.Raised? then PartnersReply(parent.odoo, parent.customers, Raised(parent.got.fault))
      else
        var invoice := GetOrCreateChild(parent.odoo, parent.got.value, InvoiceAddress, rawEmail, plan.invoice);
        if invoice.got.Raised? then PartnersReply(invoice.odoo, parent.customers, Raised(invoice.got.fault))
        else
          var delivery := GetOrCreateChild(invoice.odoo, parent.got.value, DeliveryAddress, "", plan.delivery);
          if delivery.got.Raised? then PartnersReply(delivery.odoo, parent.customers, Raised(delivery.got.fault))
          else PartnersReply(delivery.odoo, parent.customers,
                             Done(PartnerIds(parent.got.value, invoice.got.value, delivery.got.value)))
  }

  // ---------- what it guarantees ----------

  /** A mapping row names an existing contact with that very e-mail address. */
  ghost predicate MappingsSound(customers: map<string, Id>, odoo: Odoo) {
    forall e :: e in customers ==> customers[e] in Contacts(odoo, e)
  }

  ghost predicate Grows(before: Odoo, after: Odoo) {
    && (forall i :: i in before.partners ==> i in after.partners && after.partners[i] == before.partners[i])
    && (forall i :: i in before.sales ==> i in after.sales && after.sales[i].madeFor == before.sales[i].madeFor)
  }

  ghost predicate AddsOnlyTheFirst(before: set<Id>, after: set<Id>) {
    if before == {} then |after| <= 1 else after == before
  }

  /** From one state of Odoo to a later one, no e-mail address got a second contact, and no
      parent a second child of the same kind: whatever existed is all there is, else there is at most one. */
  ghost predicate NoDuplicatePartners(before: Odoo, after: Odoo) {
    && (forall e :: AddsOnlyTheFirst(Contacts(before, e), Contacts(after, e)))
    && (forall p: Id, kind :: kind != Contact ==> AddsOnlyTheFirst(Children(before, p, kind), Children(after, p, kind)))
  }

  lemma NoDuplicatePartnersRefl(odoo: Odoo)
    ensures NoDuplicatePartners(odoo, odoo)
  {
  }

  lemma NoDuplicatePartnersTrans(a: Odoo, b: Odoo, c: Odoo)
    requires NoDuplicatePartners(a, b) && NoDuplicatePartners(b, c)
    ensures NoDuplicatePartners(a, c)
  {
  }

  /** Changing nothing about partners duplicates none. */
  lemma SamePartners(before: Odoo, after: Odoo)
    requires after.partners == before.partners
    ensures NoDuplicatePartners(before, after)
  {
  }

  lemma NewContact(odoo: Odoo, email: string, call: Call)
    requires WellFormed(odoo) && Contacts(odoo, email) == {}
    ensures var after := CreatePartner(odoo, Partner(Contact, email, None), call).odoo;
      WellFormed(after) && Grows(odoo, after) && NoDuplicatePartners(odoo, after)
  {
    var after := CreatePartner(odoo, Partner(Contact, email, None), call).odoo;
    if call.TookEffect() {
      forall e ensures Contacts(after, e) == if e == email then {odoo.nextPartner} else Contacts(odoo, e) {
      }
      forall p: Id, kind | kind != Contact ensures Children(after, p, kind) == Children(odoo, p, kind) {
      }
    } else {
      SamePartners(odoo, after);
    }
  }

  lemma NewChild(odoo: Odoo, parent: Id, kind: PartnerKind, email: string, call: Call)
    requires WellFormed(odoo) && kind != Contact && Children(odoo, parent, kind) == {}
    ensures var after := CreatePartner(odoo, Partner(kind, email, Some(parent)), call).odoo;
      WellFormed(after) && Grows(odoo, after) && NoDuplicatePartners(odoo, after)
  {
    var after := CreatePartner(odoo, Partner(kind, email, Some(parent)), call).odoo;
    if call.TookEffect() {
      forall e ensures Contacts(after, e) == Contacts(odoo, e) {
      }
      forall p: Id, k | k != Contact
        ensures Children(after, p, k) == if p == parent && k == kind then {odoo.nextPartner} else Children(odoo, p, k) {
      }
    } else {
      SamePartners(odoo, after);
    }
  }

  lemma GrowsKeepsMappings(customers: map<string, Id>, before: Odoo, after: Odoo)
    requires MappingsSound(customers, before) && Grows(before, after)
    ensures MappingsSound(customers, after)
  {
  }

  lemma ParentGuarantee(odoo: Odoo, customers: map<string, Id>, email: string, plan: CustomerPlan)
    requires WellFormed(odoo) && MappingsSound(customers, odoo)
    ensures var r := FindOrCreateParent(odoo, customers, email, plan);
      && WellFormed(r.odoo) && Grows(odoo, r.odoo) && NoDuplicatePartners(odoo, r.odoo)
      && r.odoo.sales == odoo.sales && r.odoo.nextSale == odoo.nextSale
      && MappingsSound(r.customers, r.odoo)
      && (r.got.Done? ==> r.got.value in Contacts(r.odoo, email))
  {
    var r := FindOrCreateParent(odoo, customers, email, plan);
    if Contacts(odoo, email) == {} {
      NewContact(odoo, email, plan.create);
    }
    SamePartners(odoo, odoo);
    GrowsKeepsMappings(customers, odoo, r.odoo);
    if r.got.Done? {
      if email in customers {
        assert customers[email] in Contacts(odoo, email);
      }
      forall e | e in r.customers ensures r.customers[e] in Contacts(r.odoo, e) {
        assert e in customers ==> customers[e] in Contacts(r.odoo, e);
      }
    }
  }

  lemma ChildGuarantee(odoo: Odoo, parent: Id, kind: PartnerKind, email: string, plan: ChildPlan)
    requires WellFormed(odoo) && kind != Contact
    ensures var r := GetOrCreateChild(odoo, parent, kind, email, plan);
      && WellFormed(r.odoo) && Grows(odoo, r.odoo) && NoDuplicatePartners(odoo, r.odoo)
      && r.odoo.sales == odoo.sales && r.odoo.nextSale == odoo.nextSale
      && (r.got.Done? ==> r.got.value in Children(r.odoo, parent, kind))
  {
    if Children(odoo, parent, kind) == {} {
      NewChild(odoo, parent, kind, email, plan.create);
    }
    SamePartners(odoo, odoo);
  }

  ghost predicate ThreePartners(odoo: Odoo, email: string, ids: PartnerIds) {
    && ids.contact in Contacts(odoo, email)
    && ids.invoice in Children(odoo, ids.contact, InvoiceAddress)
    && ids.delivery in Children(odoo, ids.contact, DeliveryAddress)
    && ids.contact != ids.invoice && ids.contact != ids.delivery && ids.invoice != ids.delivery
  }

  /** What every step towards the three partners keeps. */
  ghost predicate PartnersKept(before: Odoo, after: Odoo, customers: map<string, Id>) {
    && WellFormed(after) && Grows(before, after) && NoDuplicatePartners(before, after)
    && after.sales == before.sales && after.nextSale == before.nextSale
    && MappingsSound(customers, after)
  }

  lemma ChildKeeps(start: Odoo, odoo: Odoo, customers: map<string, Id>, parent: Id, kind: PartnerKind, email: string,
      plan: ChildPlan)
    requires PartnersKept(start, odoo, customers) && kind != Contact
    ensures var r := GetOrCreateChild(odoo, parent, kind, email, plan);
      && PartnersKept(start, r.odoo, customers) && Grows(odoo, r.odoo)
      && (r.got.Done? ==> r.got.value in Children(r.odoo, parent, kind))
  {
    ChildGuarantee(odoo, parent, kind, email, plan);
    var r := GetOrCreateChild(odoo, parent, kind, email, plan);
    NoDuplicatePartnersTrans(start, odoo, r.odoo);
    GrowsKeepsMappings(customers, odoo, r.odoo);
  }

  /** Whatever fails on the way, no partner is duplicated, the sale orders are untouched, and on success
      the result names one contact and two different children of that contact. */
  lemma PartnersGuarantee(odoo: Odoo, customers: map<string, Id>, rawEmail: string, plan: CustomerPlan)
    requires WellFormed(odoo) && MappingsSound(customers, odoo)
    ensures var r := GetOrCreatePartner(odoo, customers, rawEmail, plan);
      && PartnersKept(odoo, r.odoo, r.customers)
      && (r.got.Done? ==> ThreePartners(r.odoo, Emails.Normalise(rawEmail), r.got.value))
  {
    var email := Emails.Normalise(rawEmail);
    NoDuplicatePartnersRefl(odoo);
    if email != "" {
      var parent := FindOrCreateParent(odoo, customers, email, plan);
      ParentGuarantee(odoo, customers, email, plan);
      if parent.got.Done? {
        var p := parent.got.value;
        var invoice := GetOrCreateChild(parent.odoo, p, InvoiceAddress, rawEmail, plan.invoice);
        ChildKeeps(odoo, parent.odoo, parent.customers, p, InvoiceAddress, rawEmail, plan.invoice);
        if invoice.got.Done? {
          ChildKeeps(odoo, invoice.odoo, parent.customers, p, DeliveryAddress, "", plan.delivery);
        }
      }
    }
  }
}
