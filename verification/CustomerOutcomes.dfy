/** What matching a customer means, step by step: who is found, who is made, and what is remembered. */
module CustomerOutcomes {
  import opened Outcomes
  import opened Tables
  import opened OdooApi
  import opened CustomerSync
  import Emails

  // ---------- the contact ----------

  /** A contact is answered exactly if the address is mapped, or the search succeeds and finds one, or one is created. */
  lemma ParentAnswersIff(odoo: Odoo, customers: map<string, Id>, email: string, plan: CustomerPlan)
    ensures FindOrCreateParent(odoo, customers, email, plan).got.Done? <==>
      email in customers || (plan.search.None? && (Contacts(odoo, email) != {} || plan.create.Ok?))
  {
  }

  /** The mapped contact comes first, then any that Odoo has for the address, then a new one; whoever it is, is remembered
      under the address and under no other. */
  lemma ParentMeans(odoo: Odoo, customers: map<string, Id>, email: string, plan: CustomerPlan)
    requires FindOrCreateParent(odoo, customers, email, plan).got.Done?
    ensures var r := FindOrCreateParent(odoo, customers, email, plan);
      var contact := r.got.value;
      && r.customers == customers[email := contact]
      && (email in customers ==> contact == customers[email])
      && (email !in customers && Contacts(odoo, email) != {} ==> contact in Contacts(odoo, email))
      && (email in customers || Contacts(odoo, email) != {} ==> r.odoo == odoo)
      && (email !in customers && Contacts(odoo, email) == {} ==>
            && contact == odoo.nextPartner
            && r.odoo.partners == odoo.partners[contact := Partner(PartnerKind.Contact, email, None)])
  {
  }

  /** A contact is made in Odoo exactly if the address is not mapped, the search finds nobody, and the creation takes effect,
      whatever is heard of it. */
  lemma ContactIsMadeIff(odoo: Odoo, customers: map<string, Id>, email: string, plan: CustomerPlan)
    ensures FindOrCreateParent(odoo, customers, email, plan).odoo.partners
      == if email !in customers && plan.search.None? && Contacts(odoo, email) == {} && plan.create.TookEffect()
         then odoo.partners[odoo.nextPartner := Partner(PartnerKind.Contact, email, None)] else odoo.partners
  {
  }

  lemma UnansweredIsForgotten(odoo: Odoo, customers: map<string, Id>, email: string, plan: CustomerPlan)
    requires FindOrCreateParent(odoo, customers, email, plan).got.Raised?
    ensures FindOrCreateParent(odoo, customers, email, plan).customers == customers
  {
  }

  // ---------- an address ----------

  /** A child of a kind is answered exactly if the search succeeds and the one found can be refreshed, or one is created;
      every failure is a ValueError. */
  lemma ChildAnswersIff(odoo: Odoo, parent: Id, kind: PartnerKind, email: string, plan: ChildPlan)
    ensures GetOrCreateChild(odoo, parent, kind, email, plan).got.Done? <==>
      plan.search.None? && (if Children(odoo, parent, kind) != {} then plan.write.None? else plan.create.Ok?)
    ensures GetOrCreateChild(odoo, parent, kind, email, plan).got.Raised? ==>
      GetOrCreateChild(odoo, parent, kind, email, plan).got.fault.Other?
  {
  }

  lemma ChildMeans(odoo: Odoo, parent: Id, kind: PartnerKind, email: string, plan: ChildPlan)
    requires GetOrCreateChild(odoo, parent, kind, email, plan).got.Done?
    ensures var r := GetOrCreateChild(odoo, parent, kind, email, plan);
      var child := r.got.value;
      if Children(odoo, parent, kind) != {} then child in Children(odoo, parent, kind) && r.odoo == odoo
      else child == odoo.nextPartner && r.odoo.partners == odoo.partners[child := Partner(kind, email, Some(parent))]
  {
  }

  /** One is made in Odoo exactly if the search finds none and the creation takes effect, whatever is heard of it. */
  lemma ChildIsMadeIff(odoo: Odoo, parent: Id, kind: PartnerKind, email: string, plan: ChildPlan)
    ensures GetOrCreateChild(odoo, parent, kind, email, plan).odoo.partners
      == if plan.search.None? && Children(odoo, parent, kind) == {} && plan.create.TookEffect()
         then odoo.partners[odoo.nextPartner := Partner(kind, email, Some(parent))] else odoo.partners
  {
  }

  // ---------- all three ----------

  /** A partner that was not there before is the contact of the address, or one of its two children: the invoice address with
      the e-mail address as it was typed, the delivery address without one. */
  ghost predicate IsMade(partner: Partner, contact: Id, id: Id, rawEmail: string) {
    || (id == contact && partner == Partner(PartnerKind.Contact, Emails.Normalise(rawEmail), None))
    || partner == Partner(InvoiceAddress, rawEmail, Some(contact))
    || partner == Partner(DeliveryAddress, "", Some(contact))
  }

  ghost predicate OnlyMakes(before: Odoo, after: Odoo, contact: Id, rawEmail: string) {
    forall id :: id in after.partners && id !in before.partners ==> IsMade(after.partners[id], contact, id, rawEmail)
  }

  lemma ChildMakes(start: Odoo, odoo: Odoo, contact: Id, kind: PartnerKind, email: string, plan: ChildPlan, rawEmail: string)
    requires WellFormed(odoo) && OnlyMakes(start, odoo, contact, rawEmail) && Grows(start, odoo)
    requires (kind == InvoiceAddress && email == rawEmail) || (kind == DeliveryAddress && email == "")
    ensures var after := GetOrCreateChild(odoo, contact, kind, email, plan).odoo;
      OnlyMakes(start, after, contact, rawEmail)
  {
    var after := GetOrCreateChild(odoo, contact, kind, email, plan).odoo;
    forall id | id in after.partners && id !in start.partners ensures IsMade(after.partners[id], contact, id, rawEmail) {
      if id !in odoo.partners {
        assert after.partners[id] == Partner(kind, email, Some(contact));
      }
    }
  }

  /** On success the address is mapped to the contact, a contact that was mapped or known before is the one answered, nobody
      else's mapping changes, and whoever is new is one of the three. */
  lemma PartnersMean(odoo: Odoo, customers: map<string, Id>, rawEmail: string, plan: CustomerPlan)
    requires WellFormed(odoo) && MappingsSound(customers, odoo)
    requires GetOrCreatePartner(odoo, customers, rawEmail, plan).got.Done?
    ensures var r := GetOrCreatePartner(odoo, customers, rawEmail, plan);
      var email, contact := Emails.Normalise(rawEmail), r.got.value.contact;
      && email != "" && r.customers == customers[email := contact]
      && (email in customers ==> contact == customers[email])
      && (Contacts(odoo, email) != {} ==> contact in Contacts(odoo, email))
      && OnlyMakes(odoo, r.odoo, contact, rawEmail)
  {
    var email := Emails.Normalise(rawEmail);
    var parent := FindOrCreateParent(odoo, customers, email, plan);
    ParentMeans(odoo, customers, email, plan);
    ParentGuarantee(odoo, customers, email, plan);
    var p := parent.got.value;
    var invoice := GetOrCreateChild(parent.odoo, p, InvoiceAddress, rawEmail, plan.invoice);
    ChildMakes(odoo, parent.odoo, p, InvoiceAddress, rawEmail, plan.invoice, rawEmail);
    ChildGuarantee(parent.odoo, p, InvoiceAddress, rawEmail, plan.invoice);
    ChildMakes(odoo, invoice.odoo, p, DeliveryAddress, "", plan.delivery, rawEmail);
  }

  /** All three are answered exactly if the address is not empty and each of them is answered. */
  lemma PartnersAnswerIff(odoo: Odoo, customers: map<string, Id>, rawEmail: string, plan: CustomerPlan)
    ensures var email := Emails.Normalise(rawEmail);
      var parent := FindOrCreateParent(odoo, customers, email, plan);
      GetOrCreatePartner(odoo, customers, rawEmail, plan).got.Done? <==>
        && email != "" && parent.got.Done?
        && var invoice := GetOrCreateChild(parent.odoo, parent.got.value, InvoiceAddress, rawEmail, plan.invoice);
           && invoice.got.Done?
           && GetOrCreateChild(invoice.odoo, parent.got.value, DeliveryAddress, "", plan.delivery).got.Done?
  {
  }

  /** Once the contact is had, it is remembered even if an address is not; and Odoo is as the last step left it. */
  lemma ContactIsRemembered(odoo: Odoo, customers: map<string, Id>, rawEmail: string, plan: CustomerPlan)
    requires Emails.Normalise(rawEmail) != ""
    ensures var r := GetOrCreatePartner(odoo, customers, rawEmail, plan);
      var parent := FindOrCreateParent(odoo, customers, Emails.Normalise(rawEmail), plan);
      && r.customers == parent.customers
      && if parent.got.Raised? then r.odoo == parent.odoo
         else
           && r.customers == customers[Emails.Normalise(rawEmail) := parent.got.value]
           && var invoice := GetOrCreateChild(parent.odoo, parent.got.value, InvoiceAddress, rawEmail, plan.invoice);
              r.odoo == if invoice.got.Raised? then invoice.odoo
                        else GetOrCreateChild(invoice.odoo, parent.got.value, DeliveryAddress, "", plan.delivery).odoo
  {
    var email := Emails.Normalise(rawEmail);
    if FindOrCreateParent(odoo, customers, email, plan).got.Done? {
      ParentMeans(odoo, customers, email, plan);
    }
  }

  /** An empty address is refused before anything is asked or written. */
  lemma EmptyAddressIsRefused(odoo: Odoo, customers: map<string, Id>, rawEmail: string, plan: CustomerPlan)
    requires Emails.Normalise(rawEmail) == ""
    ensures GetOrCreatePartner(odoo, customers, rawEmail, plan) == PartnersReply(odoo, customers, Raised(Other))
  {
  }
}
