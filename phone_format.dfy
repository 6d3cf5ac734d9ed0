/**
 * The customer form of the web client (both copies): phone numbers are normalised to the
 * `+880` country prefix, and optional fields left empty are sent as null.
 */
module PhoneFormat {
  import opened Common
  import opened Text

  /**
   * `formatPhoneNumber`: empty input is kept; otherwise, on the digits alone, a leading `880`
   * gets a `+`, a leading `0` becomes `+880`, ten digits starting with `1` get `+880`; an
   * input already starting with `+` is kept as typed, and anything else gets `+880`.
   */
  function FormatPhone(phone: string): (r: string)
    ensures phone == "" <==> r == ""
    ensures phone != "" && phone[0] != '+' ==> StartsWith(r, "+880") && AllDigits(r[1..])
    ensures phone != "" && phone[0] == '+' ==> r == phone || (StartsWith(r, "+880") && AllDigits(r[1..]))
  {
    if phone == "" then phone
    else
      var cleaned := DigitsOf(phone);
      if StartsWith(cleaned, "880") then "+" + cleaned
      else if StartsWith(cleaned, "0") then "+880" + cleaned[1..]
      else if StartsWith(cleaned, "1") && |cleaned| == 10 then "+880" + cleaned
      else if StartsWith(phone, "+") then phone
      else "+880" + cleaned
  }

  /** A `+` followed by digits starting with 880 is already normal. */
  lemma NormalIsFixed(d: string)
    requires AllDigits(d) && StartsWith(d, "880")
    ensures FormatPhone("+" + d) == "+" + d
  {
    DigitsOfAppend("+", d);
    DigitsOfDigits(d);
  }

  /** A digit string after `+880` keeps its digits: `+880` and the digits read back as 880 and them. */
  lemma CountryPrefixDigits(x: string)
    requires AllDigits(x)
    ensures "+880" + x == "+" + ("880" + x) && AllDigits("880" + x) && StartsWith("880" + x, "880")
  {
    assert ("880" + x)[..3] == "880";
  }

  /**
   * Normalising twice is normalising once: every output starting with `+880` is a fixed
   * point, and a typed `+` number that matched no rule is passed on again unchanged.
   */
  lemma FormatPhoneIdempotent(phone: string)
    ensures FormatPhone(FormatPhone(phone)) == FormatPhone(phone)
  {
    if phone != "" {
      var cleaned := DigitsOf(phone);
      if StartsWith(cleaned, "880") {
        NormalIsFixed(cleaned);
      } else if StartsWith(cleaned, "0") {
        CountryPrefixDigits(cleaned[1..]);
        NormalIsFixed("880" + cleaned[1..]);
      } else if StartsWith(cleaned, "1") && |cleaned| == 10 {
        CountryPrefixDigits(cleaned);
        NormalIsFixed("880" + cleaned);
      } else if !StartsWith(phone, "+") {
        CountryPrefixDigits(cleaned);
        NormalIsFixed("880" + cleaned);
      }
    }
  }

  /** A local number written with a leading 0 and the same number in international form agree. */
  lemma LocalAndInternationalAgree(rest: string)
    requires AllDigits(rest)
    ensures FormatPhone("0" + rest) == FormatPhone("+880" + rest) == "+880" + rest
  {
    var local := "0" + rest;
    assert AllDigits(local) by {
      assert forall i :: 0 < i < |local| ==> local[i] == rest[i - 1];
    }
    DigitsOfDigits(local);
    assert local[0] == '0' && local[..1] == "0" && local[1..] == rest;
    assert !StartsWith(local, "880");
    assert FormatPhone(local) == "+880" + rest;
    CountryPrefixDigits(rest);
    NormalIsFixed("880" + rest);
  }

  // ---------------------------------------------------------------- the payload

  /** The form fields the payload treats specially, as typed. */
  datatype CustomerForm = CustomerForm(
    phone: string,
    alternativePhone: string,
    zone: string,
    connectionType: string,
    email: string,
    nid: string,
    macAddress: string,
    staticIp: string)

  /** Those fields as sent. */
  datatype Payload = Payload(
    phone: string,
    alternativePhone: Option<string>,
    zone: Option<int>,
    email: Option<string>,
    nid: Option<string>,
    macAddress: Option<string>,
    staticIp: Option<string>)

  /** `value || null`: an empty string is sent as null. */
  function OrNull(s: string): (r: Option<string>)
    ensures r.None? <==> s == ""
    ensures r.Some? ==> r.value == s
  {
    if s == "" then None else Some(s)
  }

  /** A selected id as typed, parsed; nothing selected, or no number, is null. */
  function SelectedId(s: string): (r: Option<int>)
    ensures s == "" ==> r.None?
    ensures s != "" && AllDigits(s) ==> r == Some(ParseDigits(s))
  {
    if s == "" then None else ParseInt(s)
  }

  /**
   * The payload of `handleSubmit`: the phone is normalised, the alternative phone is
   * normalised only when given and otherwise null, the zone is parsed or null, and empty
   * email, NID, MAC address and static IP are null.
   */
  function CustomerPayload(f: CustomerForm): (p: Payload)
    ensures p.phone == FormatPhone(f.phone)
    ensures p.alternativePhone.None? <==> f.alternativePhone == ""
    ensures p.alternativePhone.Some? ==> p.alternativePhone.value == FormatPhone(f.alternativePhone)
    ensures p.email.None? <==> f.email == ""
    ensures p.nid.None? <==> f.nid == ""
    ensures p.macAddress.None? <==> f.macAddress == ""
    ensures p.staticIp.None? <==> f.staticIp == ""
    ensures f.zone == "" ==> p.zone.None?
    ensures f.zone != "" && AllDigits(f.zone) ==> p.zone == Some(ParseDigits(f.zone))
  {
    Payload(FormatPhone(f.phone),
            if f.alternativePhone != "" then Some(FormatPhone(f.alternativePhone)) else None,
            SelectedId(f.zone), OrNull(f.email), OrNull(f.nid), OrNull(f.macAddress), OrNull(f.staticIp))
  }

  /**
   * The copy with an edit mode also sends the connection type as a parsed id, or null when
   * none is selected; the other copy sends the connection type as typed.
   */
  function CustomerPayloadWithType(f: CustomerForm): (r: (Payload, Option<int>))
    ensures r.0 == CustomerPayload(f)
    ensures f.connectionType == "" ==> r.1.None?
    ensures f.connectionType != "" && AllDigits(f.connectionType) ==> r.1 == Some(ParseDigits(f.connectionType))
  {
    (CustomerPayload(f), SelectedId(f.connectionType))
  }

  /** Sending a payload's phones through the form again sends the same phones. */
  lemma PayloadPhonesStable(f: CustomerForm)
    ensures var p := CustomerPayload(f);
      var again := CustomerPayload(f.(phone := p.phone,
                                      alternativePhone := if p.alternativePhone.Some? then p.alternativePhone.value else ""));
      again.phone == p.phone && again.alternativePhone == p.alternativePhone
  {
    FormatPhoneIdempotent(f.phone);
    FormatPhoneIdempotent(f.alternativePhone);
  }
}
