/** CustomerSyncService, step by step. */
module CustomerService {
  import opened Outcomes
  import opened Tables
  import opened OdooApi
  import opened Sessions
  import opened MappingRepositories
  import C = CustomerSync

  class CustomerSyncService {
    const db: Session
    const odoo: OdooStore
    const customerRepo: CustomerMappingRepository

    ghost predicate Wired() {
      customerRepo.db == db
    }

    constructor (db: Session, odoo: OdooStore)
      ensures Wired() && this.db == db && this.odoo == odoo
    {
      this.db, this.odoo := db, odoo;
      customerRepo := new CustomerMappingRepository(db);
    }

    method FindOrCreateParent(email: string, plan: C.CustomerPlan) returns (r: Result<Id>)
      requires Wired() && Emails.Normalise(email) == email
      modifies db`working, odoo
      ensures var end := C.FindOrCreateParent(old(odoo.View()), old(db.working).customers, email, plan);
        && C.ParentReply(odoo.View(), db.working.customers, r) == end
        && db.working == old(db.working).(customers := end.customers)
    {
      var mapped := customerRepo.GetByEmail(email);
      if mapped.Some? {
        return Done(mapped.value);
      }
      var found := odoo.FindContact(email, plan.search, plan.preferred);
      if found.Raised? {
        return Raised(found.fault);
      }
      if found.value.Some? {
        customerRepo.Create(email, found.value.value);
        return Done(found.value.value);
      }
      r := odoo.NewPartner(Partner(Contact, email, None), plan.create);
      if r.Done? {
        customerRepo.Create(email, r.value);
      }
    }

    method GetOrCreateChild(parent: Id, kind: PartnerKind, email: string, plan: C.ChildPlan) returns (r: Result<Id>)
      modifies odoo
      ensures Reply(odoo.View(), r) == C.GetOrCreateChild(old(odoo.View()), parent, kind, email, plan)
    {
      if plan.search.Some? {
        return Raised(Other);
      }
      var existing := Chosen(Children(odoo.View(), parent, kind), plan.preferred);
      if existing.Some? {
        return if plan.write.Some? then Raised(Other) else Done(existing.value);
      }
      r := odoo.NewPartner(Partner(kind, email, Some(parent)), plan.create);
      if r.Raised? {
        r := Raised(Other);
      }
    }

    method GetOrCreatePartner(rawEmail: string, plan: C.CustomerPlan) returns (r: Result<PartnerIds>)
      requires Wired()
      modifies db`working, odoo
      ensures var end := C.GetOrCreatePartner(old(odoo.View()), old(db.working).customers, rawEmail, plan);
        && C.PartnersReply(odoo.View(), db.working.customers, r) == end
        && db.working == old(db.working).(customers := end.customers)
    {
      var email := Emails.Normalise(rawEmail);
      Emails.NormaliseTwice(rawEmail);
      if email == "" {
        return Raised(Other);
      }
      var parent := FindOrCreateParent(email, plan);
      if parent.Raised? {
        return Raised(parent.fault);
      }
      var invoice := GetOrCreateChild(parent.value, InvoiceAddress, rawEmail, plan.invoice);
      if invoice.Raised? {
        return Raised(invoice.fault);
      }
      var delivery := GetOrCreateChild(parent.value, DeliveryAddress, "", plan.delivery);
      if delivery.Raised? {
        return Raised(delivery.fault);
      }
      return Done(PartnerIds(parent.value, invoice.value, delivery.value));
    }
  }
}
