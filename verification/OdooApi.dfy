/** The part of Odoo the services write to: partners and sale orders.  Effects are permanent. */
module OdooApi {
  import opened Outcomes
  import opened Tables

  datatype Reply = Reply(odoo: Odoo, got: Result<Id>)

  function Contacts(odoo: Odoo, email: string): set<Id> {
    set i | i in odoo.partners && odoo.partners[i].kind.Contact? && odoo.partners[i].email == email
  }

  function Children(odoo: Odoo, parent: Id, kind: PartnerKind): set<Id> {
    set i | i in odoo.partners && odoo.partners[i].kind == kind && odoo.partners[i].parent == Some(parent)
  }

  function Created(odoo: Odoo, order: int): set<Id> {
    set i | i in odoo.sales && odoo.sales[i].madeFor == order
  }

  ghost predicate WellFormed(odoo: Odoo) {
    && (forall i :: i in odoo.partners ==> i < odoo.nextPartner)
    && (forall i :: i in odoo.sales ==> i < odoo.nextSale)
  }

  function CreatePartner(odoo: Odoo, partner: Partner, call: Call): Reply {
    var made := odoo.(partners := odoo.partners[odoo.nextPartner := partner], nextPartner := odoo.nextPartner + 1);
    match call
    case Ok => Reply(made, Done(odoo.nextPartner))
    case Late(f) => Reply(made, Raised(f))
    case Lost(f) => Reply(odoo, Raised(f))
  }

  function CreateSale(odoo: Odoo, sale: SaleOrder, call: Call): Reply {
    var made := odoo.(sales := odoo.sales[odoo.nextSale := sale], nextSale := odoo.nextSale + 1);
    match call
    case Ok => Reply(made, Done(odoo.nextSale))
    case Late(f) => Reply(made, Raised(f))
    case Lost(f) => Reply(odoo, Raised(f))
  }

  /** A write to one existing sale order; change is what the method does to it. */
  function OnSale(odoo: Odoo, id: Id, call: Call, change: SaleOrder -> SaleOrder): Odoo {
    if call.TookEffect() && id in odoo.sales then odoo.(sales := odoo.sales[id := change(odoo.sales[id])]) else odoo
  }

  function Confirm(odoo: Odoo, id: Id, call: Call): Odoo {
    OnSale(odoo, id, call, (s: SaleOrder) => s.(confirmed := true))
  }

  function CancelSale(odoo: Odoo, id: Id, call: Call): Odoo {
    OnSale(odoo, id, call, (s: SaleOrder) => s.(cancelled := true))
  }

  /** The remote store as the services hold it. */
  class OdooStore {
    var partners: map<Id, Partner>
    var nextPartner: Id
    var sales: map<Id, SaleOrder>
    var nextSale: Id

    function View(): Odoo
      reads this
    {
      Odoo(partners, nextPartner, sales, nextSale)
    }

    constructor (start: Odoo)
      ensures View() == start
    {
      partners, nextPartner, sales, nextSale := start.partners, start.nextPartner, start.sales, start.nextSale;
    }

    method FindContact(email: string, search: Option<Fault>, preferred: int) returns (r: Result<Option<Id>>)
      ensures r == if search.Some? then Raised(search.value) else Done(Chosen(Contacts(View(), email), preferred))
    {
      if search.Some? {
        return Raised(search.value);
      }
      return Done(Chosen(Contacts(View(), email), preferred));
    }

    method NewPartner(partner: Partner, call: Call) returns (r: Result<Id>)
      modifies this
      ensures Reply(View(), r) == CreatePartner(old(View()), partner, call)
    {
      r := if call.Ok? then Done(nextPartner) else Raised(call.fault);
      if call.TookEffect() {
        partners := partners[nextPartner := partner];
        nextPartner := nextPartner + 1;
      }
    }

    method NewSale(sale: SaleOrder, call: Call) returns (r: Result<Id>)
      modifies this
      ensures Reply(View(), r) == CreateSale(old(View()), sale, call)
    {
      r := if call.Ok? then Done(nextSale) else Raised(call.fault);
      if call.TookEffect() {
        sales := sales[nextSale := sale];
        nextSale := nextSale + 1;
      }
    }

    method ActionConfirm(id: Id, call: Call)
      modifies this
      ensures View() == Confirm(old(View()), id, call)
    {
      if call.TookEffect() && id in sales {
        sales := sales[id := sales[id].(confirmed := true)];
      }
    }

    method ActionCancel(id: Id, call: Call)
      modifies this
      ensures View() == CancelSale(old(View()), id, call)
    {
      if call.TookEffect() && id in sales {
        sales := sales[id := sales[id].(cancelled := true)];
      }
    }
  }
}
