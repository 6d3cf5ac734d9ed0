/**
 * Customers: the `ISP-YYYY-NNNN` identifier given on first save, the derived address and
 * status tests, and the create/update validators of the customer serializers.
 */
module Customers {
  import opened Common
  import opened Text
  import Codes
  import Ledger

  datatype CustomerStatus = CustomerActive | CustomerSuspended | Inactive | Closed

  /** A row of the `customers` table; zone and connection type are given by their names. */
  datatype Customer = Customer(
    customerId: string,
    name: string,
    phone: string,
    address: string,
    zoneName: Option<string>,
    connectionTypeName: Option<string>,
    staticIp: Option<string>,
    email: Option<string>,
    billingType: string,
    status: CustomerStatus,
    createdBy: Option<nat>)

  function CustomerIds(cs: seq<Customer>): (r: seq<string>)
    ensures |r| == |cs|
    ensures forall i :: 0 <= i < |cs| ==> r[i] == cs[i].customerId
  {
    seq(|cs|, i requires 0 <= i < |cs| => cs[i].customerId)
  }

  /** `Customer.save`: a customer without an id gets `ISP-YYYY-NNNN`; an existing id is kept. */
  function SavedCustomer(c: Customer, year: int, existing: seq<string>): Customer
  {
    c.(customerId := Ledger.AssignCode(c.customerId, Codes.YearScope("ISP", year), existing))
  }

  lemma SavedCustomerId(c: Customer, year: int, existing: seq<string>)
    ensures c.customerId != "" ==> SavedCustomer(c, year, existing).customerId == c.customerId
    ensures c.customerId == "" ==> SavedCustomer(c, year, existing).customerId !in existing
    ensures c.customerId == "" ==> Codes.InScope(SavedCustomer(c, year, existing).customerId, Codes.YearScope("ISP", year))
  {
    var scope := Codes.YearScope("ISP", year);
    Ledger.YearScopeEndsWithDash("ISP", year);
    Ledger.AssignCodeSpec(c.customerId, scope, existing);
    if c.customerId == "" {
      var n := Codes.NextNumber(existing, scope);
      Codes.SuffixOfFormatCode(scope, n);
    }
  }

  /** `full_address`: the address followed by the zone's name when there is a zone. */
  function FullAddress(c: Customer): (r: string)
    ensures c.zoneName.None? ==> r == c.address
    ensures c.zoneName.Some? ==> StartsWith(r, c.address + ", ") && r[|c.address| + 2..] == c.zoneName.value
  {
    match c.zoneName
    case None => c.address
    case Some(z) => c.address + ", " + z
  }

  predicate IsActive(c: Customer) { c.status == CustomerActive }

  predicate IsSuspended(c: Customer) { c.status == CustomerSuspended }

  lemma StatusTestsExclusive(c: Customer)
    ensures !(IsActive(c) && IsSuspended(c))
  {
  }

  /** The `customers` table. */
  class CustomerTable {
    var customers: seq<Customer>

    ghost predicate Valid()
      reads this
    {
      forall i, j :: 0 <= i < j < |customers| ==> customers[i].customerId != customers[j].customerId
    }

    constructor ()
      ensures Valid() && customers == []
    {
      customers := [];
    }

    /** Insert a new customer through `Customer.save`. */
    method Create(c: Customer, year: int) returns (idx: nat)
      requires Valid() && c.customerId == ""
      modifies this
      ensures Valid()
      ensures idx == |old(customers)|
      ensures customers == old(customers) + [SavedCustomer(c, year, CustomerIds(old(customers)))]
    {
      var ids := CustomerIds(customers);
      var saved := SavedCustomer(c, year, ids);
      SavedCustomerId(c, year, ids);
      assert forall i :: 0 <= i < |customers| ==> customers[i].customerId != saved.customerId by {
        forall i | 0 <= i < |customers| ensures customers[i].customerId != saved.customerId {
          assert ids[i] == customers[i].customerId;
        }
      }
      idx := |customers|;
      customers := customers + [saved];
    }
  }

  // ---------------------------------------------------------------- serializer validators

  /** Does any customer (other than the one at `except`) use this phone number? */
  predicate PhoneTaken(cs: seq<Customer>, phone: string, except: Option<nat>)
  {
    exists i :: 0 <= i < |cs| && cs[i].phone == phone && Some(i) != except
  }

  /** `CustomerCreateSerializer.validate_phone`. */
  function ValidatePhoneOnCreate(cs: seq<Customer>, phone: string): (r: Result<string>)
    ensures r.Ok? <==> forall i :: 0 <= i < |cs| ==> cs[i].phone != phone
    ensures r.Ok? ==> r.value == phone
  {
    if PhoneTaken(cs, phone, None) then Err("A customer with this phone number already exists.")
    else Ok(phone)
  }

  /** `CustomerUpdateSerializer.validate_phone`: the customer being edited does not count. */
  function ValidatePhoneOnUpdate(cs: seq<Customer>, self: nat, phone: string): (r: Result<string>)
    ensures r.Ok? <==> forall i :: 0 <= i < |cs| && i != self ==> cs[i].phone != phone
    ensures r.Ok? ==> r.value == phone
  {
    if PhoneTaken(cs, phone, Some(self)) then Err("A customer with this phone number already exists.")
    else Ok(phone)
  }

  /** A customer that keeps its own phone number passes the update check. */
  lemma KeepingOwnPhonePasses(cs: seq<Customer>, self: nat)
    requires self < |cs|
    requires forall i :: 0 <= i < |cs| && i != self ==> cs[i].phone != cs[self].phone
    ensures ValidatePhoneOnUpdate(cs, self, cs[self].phone).Ok?
    ensures ValidatePhoneOnCreate(cs, cs[self].phone).Err?
  {
  }

  /** Python truthiness of an optional string. */
  predicate Present(s: Option<string>)
  {
    s.Some? && s.value != ""
  }

  /** The connection type's name contains "static" in any letter case. */
  predicate NeedsStaticIp(c: Customer)
  {
    c.connectionTypeName.Some? && Contains(Lower(c.connectionTypeName.value), "static")
  }

  /**
   * `CustomerCreateSerializer.validate`: a connection type whose name contains "static"
   * (in any letter case) needs a static IP. A business customer without an email passes.
   */
  function ValidateCustomer(c: Customer): (r: Result<Customer>)
    ensures r.Ok? ==> r.value == c
    ensures r.Err? <==> NeedsStaticIp(c) && !Present(c.staticIp)
  {
    if NeedsStaticIp(c) && !Present(c.staticIp) then Err("Static IP is required for Static IP connection type.")
    else Ok(c)
  }

  lemma StaticConnectionNeedsAddress(c: Customer)
    requires c.connectionTypeName == Some("Static IP")
    ensures ValidateCustomer(c.(staticIp := None)).Err?
    ensures ValidateCustomer(c.(staticIp := Some("10.0.0.2"))).Ok?
  {
    assert Lower("Static IP") == "static ip";
    ContainsAppend([], "static", " ip");
    assert [] + "static" + " ip" == "static ip";
  }

  lemma BusinessWithoutEmailAccepted(c: Customer)
    requires c.billingType == "business" && c.email.None? && c.connectionTypeName.None?
    ensures ValidateCustomer(c).Ok?
  {
  }

  /** `CustomerCreateSerializer.create`: the requesting user, when there is one, is recorded. */
  function WithCreator(c: Customer, user: Option<nat>): (r: Customer)
    ensures user.Some? ==> r.createdBy == user
    ensures user.None? ==> r.createdBy == c.createdBy
    ensures r.(createdBy := c.createdBy) == c
  {
    if user.Some? then c.(createdBy := user) else c
  }
}
