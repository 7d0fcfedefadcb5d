/** What an external call can do to its caller, and how a query picks one answer among several. */
module Outcomes {

  datatype Option<+T> = None | Some(value: T)

  /** The exception classes the services tell apart: OdooAPIError or WooCommerceAPIError, and all others. */
  datatype Fault = Api | Other

  /** The fate of one writing call.  Lost raises before the effect; Late takes effect and then raises. */
  datatype Call = Ok | Lost(fault: Fault) | Late(fault: Fault) {
    predicate TookEffect() {
      !Lost?
    }
  }

  /** The fate of one creating request, which the client sends again after a timeout, a transport error or an answer
      5xx: resent counts the earlier sends that took effect unheard, last is the fate of the send that ended it. */
  datatype Posting = Posting(resent: nat, last: Call) {
    function Effects(): nat {
      resent + if last.TookEffect() then 1 else 0
    }
  }

  datatype Result<+T> = Done(value: T) | Raised(fault: Fault)

  /** Record ids handed out by Odoo and WooCommerce are positive, so "if id" and "is not None" agree on them. */
  type Id = n: int | 0 < n witness 1

  lemma Member<T>(s: set<T>) returns (x: T)
    requires s != {}
    ensures x in s
  {
    x :| x in s;
  }

  lemma {:induction false} LeastExists(s: set<int>)
    requires s != {}
    ensures exists x :: x in s && forall y :: y in s ==> x <= y
  {
    var x := Member(s);
    var rest := s - {x};
    if rest == {} {
      assert s == {x};
    } else {
      LeastExists(rest);
      var m :| m in rest && forall y :: y in rest ==> m <= y;
      var least := if x <= m then x else m;
      assert forall y :: y in s ==> y == x || y in rest;
      assert least in s && forall y :: y in s ==> least <= y;
    }
  }

  function Least(s: set<int>): (x: int)
    requires s != {}
    ensures x in s && forall y :: y in s ==> x <= y
  {
    LeastExists(s);
    var x :| x in s && forall y :: y in s ==> x <= y;
    x
  }

  /** The answer of a query limited to one record.  The order of the remote store is not known to
      the caller: preferred stands for the store's choice, so every possible answer is covered. */
  function Chosen(s: set<int>, preferred: int): (r: Option<int>)
    ensures r.None? <==> s == {}
    ensures r.Some? ==> r.value in s
    ensures preferred in s ==> r == Some(preferred)
  {
    if s == {} then None
    else if preferred in s then Some(preferred)
    else Some(Least(s))
  }
}
