/** The checkout request: the field rules a customer's details must meet,
    the messages reported for the fields that fail them, and the rule that
    validation comes before the order is placed. */
module Checkout {
  import opened Results
  import opened Types
  import opened Pricing
  import opened Store

  // ---------------------------------------------------------------------
  // Field rules

  /** `\d`: an ASCII digit. */
  predicate IsDigit(c: char)
  {
    '0' <= c <= '9'
  }

  predicate AllDigits(s: string)
  {
    forall k :: 0 <= k < |s| ==> IsDigit(s[k])
  }

  /** `/^\d{16}$/` */
  predicate CardNumberOk(s: string)
  {
    |s| == 16 && AllDigits(s)
  }

  /** `/^(0[1-9]|1[0-2])\/\d{2}$/` */
  predicate ExpiryOk(s: string)
  {
    && |s| == 5
    && ((s[0] == '0' && '1' <= s[1] <= '9') || (s[0] == '1' && '0' <= s[1] <= '2'))
    && s[2] == '/'
    && IsDigit(s[3]) && IsDigit(s[4])
  }

  /** `/^\d{3,4}$/` */
  predicate CvcOk(s: string)
  {
    (|s| == 3 || |s| == 4) && AllDigits(s)
  }

  /** The value of a digit. */
  function DigitValue(c: char): int
    requires IsDigit(c)
  {
    c as int - '0' as int
  }

  /** The number written by two digits. */
  function TwoDigits(s: string): (n: int)
    requires |s| == 2 && AllDigits(s)
    ensures 0 <= n <= 99
  {
    10 * DigitValue(s[0]) + DigitValue(s[1])
  }

  /** The expiry pattern accepts exactly `MM/YY` with a month from 1 to 12. */
  lemma ExpiryIsMonthSlashYear(s: string)
    ensures ExpiryOk(s) <==>
      && |s| == 5 && AllDigits(s[..2]) && s[2] == '/' && AllDigits(s[3..])
      && 1 <= TwoDigits(s[..2]) <= 12
  {
    if |s| == 5 && AllDigits(s[..2]) {
      assert s[..2][0] == s[0] && s[..2][1] == s[1];
    }
    if ExpiryOk(s) {
      assert AllDigits(s[..2]) by {
        assert s[..2][0] == s[0] && s[..2][1] == s[1];
      }
      assert AllDigits(s[3..]) by {
        assert s[3..][0] == s[3] && s[3..][1] == s[4];
      }
    }
    if |s| == 5 && AllDigits(s[3..]) {
      assert s[3..][0] == s[3] && s[3..][1] == s[4];
    }
  }

  /** The card rules at their boundaries: exactly 16 digits; a month from
      01 to 12, a slash and two digits; 3 or 4 digits. */
  lemma CardRulesOnSamples()
    ensures CardNumberOk("1111222233334444")
    ensures !CardNumberOk("111122223333444") && !CardNumberOk("11112222333344445")
    ensures !CardNumberOk("1111-2222-3333-4")
    ensures ExpiryOk("12/25") && ExpiryOk("01/30")
    ensures !ExpiryOk("13/25") && !ExpiryOk("00/25") && !ExpiryOk("1/25") && !ExpiryOk("12-25")
    ensures CvcOk("123") && CvcOk("1234")
    ensures !CvcOk("12") && !CvcOk("12345") && !CvcOk("12a")
  {
    assert "1111-2222-3333-4"[4] == '-';
    assert "12a"[2] == 'a';
  }

  /** The fields of the schema, each with one rule. */
  datatype Field = Name | Email | Address | City | Zip | CardNumber | CardExpiry | CardCvc

  /** The schema's fields in the order it lists them. */
  const SchemaOrder: seq<Field> := [Name, Email, Address, City, Zip, CardNumber, CardExpiry, CardCvc]

  /** The rule of one field. The email rule is the schema library's own and
      is taken as given. */
  predicate Holds(d: CustomerDetails, isEmail: string -> bool, f: Field)
  {
    match f
    case Name => |d.name| >= 2
    case Email => isEmail(d.email)
    case Address => |d.address| >= 5
    case City => |d.city| >= 2
    case Zip => |d.zip| >= 4
    case CardNumber => CardNumberOk(d.cardNumber)
    case CardExpiry => ExpiryOk(d.cardExpiry)
    case CardCvc => CvcOk(d.cardCvc)
  }

  /** The message reported when a field breaks its rule. */
  function Message(f: Field): string
  {
    match f
    case Name => "Name must be at least 2 characters."
    case Email => "Please enter a valid email."
    case Address => "Address must be at least 5 characters."
    case City => "City must be at least 2 characters."
    case Zip => "Zip code must be at least 4 characters."
    case CardNumber => "Card number must be 16 digits."
    case CardExpiry => "Expiry must be in MM/YY format."
    case CardCvc => "CVC must be 3 or 4 digits."
  }

  /** The position of a field in the schema. */
  function Rank(f: Field): nat
  {
    match f
    case Name => 0
    case Email => 1
    case Address => 2
    case City => 3
    case Zip => 4
    case CardNumber => 5
    case CardExpiry => 6
    case CardCvc => 7
  }

  /** Fields listed in schema order, each at most once. */
  predicate InSchemaOrder(fields: seq<Field>)
  {
    forall i, j :: 0 <= i < j < |fields| ==> Rank(fields[i]) < Rank(fields[j])
  }

  lemma SchemaOrderRanked()
    ensures InSchemaOrder(SchemaOrder)
  {
  }

  /** The fields of `fields` that break their rule, in the same order. */
  function Broken(d: CustomerDetails, isEmail: string -> bool, fields: seq<Field>): (r: seq<Field>)
    ensures |r| <= |fields|
    ensures forall f :: f in r <==> f in fields && !Holds(d, isEmail, f)
    ensures InSchemaOrder(fields) ==> InSchemaOrder(r)
  {
    if fields == [] then []
    else if Holds(d, isEmail, fields[0]) then Broken(d, isEmail, fields[1..])
    else
      HeadBeforeRest(fields);
      [fields[0]] + Broken(d, isEmail, fields[1..])
  }

  /** In schema order, the first field ranks below every later one. */
  lemma HeadBeforeRest(fields: seq<Field>)
    requires fields != []
    ensures InSchemaOrder(fields) ==> InSchemaOrder(fields[1..])
    ensures InSchemaOrder(fields) ==> forall g :: g in fields[1..] ==> Rank(fields[0]) < Rank(g)
  {
    if InSchemaOrder(fields) {
      forall g | g in fields[1..] ensures Rank(fields[0]) < Rank(g) {
        var k :| 0 <= k < |fields| - 1 && fields[1..][k] == g;
        assert fields[k + 1] == g;
      }
    }
  }

  /** `checkoutSchema.parse` failing: the message of every broken rule, in
      field order. There is no message exactly when every rule holds; each
      broken rule has its message reported, and every reported message is
      that of a broken rule. */
  function ValidationErrors(d: CustomerDetails, isEmail: string -> bool): (r: seq<string>)
    ensures |r| == |Broken(d, isEmail, SchemaOrder)|
    ensures forall k :: 0 <= k < |r| ==> r[k] == Message(Broken(d, isEmail, SchemaOrder)[k])
    ensures r == [] <==> Acceptable(d, isEmail)
    ensures forall f :: !Holds(d, isEmail, f) ==> Message(f) in r
    ensures forall m :: m in r ==> exists f :: !Holds(d, isEmail, f) && m == Message(f)
  {
    var broken := Broken(d, isEmail, SchemaOrder);
    var r := seq(|broken|, k requires 0 <= k < |broken| => Message(broken[k]));
    MessagesOfBroken(d, isEmail, r);
    r
  }

  /** Messages listed one per broken field report exactly the broken rules. */
  lemma MessagesOfBroken(d: CustomerDetails, isEmail: string -> bool, r: seq<string>)
    requires var broken := Broken(d, isEmail, SchemaOrder);
      |r| == |broken| && forall k :: 0 <= k < |r| ==> r[k] == Message(broken[k])
    ensures r == [] <==> Acceptable(d, isEmail)
    ensures forall f :: !Holds(d, isEmail, f) ==> Message(f) in r
    ensures forall m :: m in r ==> exists f :: !Holds(d, isEmail, f) && m == Message(f)
  {
    var broken := Broken(d, isEmail, SchemaOrder);
    AcceptableIsEveryRule(d, isEmail);
    forall f | !Holds(d, isEmail, f) ensures Message(f) in r {
      EveryFieldListed(f);
      var k :| 0 <= k < |broken| && broken[k] == f;
      assert r[k] == Message(f);
    }
    forall m | m in r ensures exists f :: !Holds(d, isEmail, f) && m == Message(f) {
      var k :| 0 <= k < |r| && r[k] == m;
      assert broken[k] in broken;
    }
    if broken != [] {
      assert broken[0] in broken;
    } else {
      forall g ensures Holds(d, isEmail, g) {
        EveryFieldListed(g);
      }
    }
  }

  /** Every rule the schema states. */
  predicate Acceptable(d: CustomerDetails, isEmail: string -> bool)
  {
    && |d.name| >= 2 && isEmail(d.email) && |d.address| >= 5 && |d.city| >= 2
    && |d.zip| >= 4 && CardNumberOk(d.cardNumber) && ExpiryOk(d.cardExpiry)
    && CvcOk(d.cardCvc)
  }

  /** The schema lists every field. */
  lemma EveryFieldListed(f: Field)
    ensures f in SchemaOrder
  {
    assert SchemaOrder[0] == Name && SchemaOrder[1] == Email && SchemaOrder[2] == Address;
    assert SchemaOrder[3] == City && SchemaOrder[4] == Zip && SchemaOrder[5] == CardNumber;
    assert SchemaOrder[6] == CardExpiry && SchemaOrder[7] == CardCvc;
  }

  /** The conjunction is the rule of every field. */
  lemma AcceptableIsEveryRule(d: CustomerDetails, isEmail: string -> bool)
    ensures Acceptable(d, isEmail) <==> forall f :: Holds(d, isEmail, f)
  {
    if !Acceptable(d, isEmail) {
      assert !Holds(d, isEmail, Name) || !Holds(d, isEmail, Email) || !Holds(d, isEmail, Address)
          || !Holds(d, isEmail, City) || !Holds(d, isEmail, Zip) || !Holds(d, isEmail, CardNumber)
          || !Holds(d, isEmail, CardExpiry) || !Holds(d, isEmail, CardCvc);
    }
  }

  /** No message means every rule holds; a field is reported exactly when
      it breaks its rule, and the reported fields come once each, in schema
      order. */
  lemma ValidationErrorsExact(d: CustomerDetails, isEmail: string -> bool, f: Field)
    ensures ValidationErrors(d, isEmail) == [] <==> Acceptable(d, isEmail)
    ensures f in Broken(d, isEmail, SchemaOrder) <==> !Holds(d, isEmail, f)
    ensures InSchemaOrder(Broken(d, isEmail, SchemaOrder))
  {
    SchemaOrderRanked();
    var broken := Broken(d, isEmail, SchemaOrder);
    AcceptableIsEveryRule(d, isEmail);
    EveryFieldListed(f);
    if broken != [] {
      EveryFieldListed(broken[0]);
      assert broken[0] in broken;
    } else {
      forall g ensures Holds(d, isEmail, g) {
        EveryFieldListed(g);
      }
    }
  }

  /** The customer details of the store's tests meet every rule, given
      that the email rule accepts their address. */
  lemma TestCustomerAccepted(isEmail: string -> bool)
    requires isEmail("test@example.com")
    ensures ValidationErrors(CustomerDetails("Test User", "test@example.com", "123 Test St",
                                             "Testville", "12345", "1111222233334444",
                                             "12/25", "123"), isEmail) == []
  {
    CardRulesOnSamples();
  }

  // ---------------------------------------------------------------------
  // The reported message

  /** `messages.join(', ')` */
  function Join(parts: seq<string>): (s: string)
    ensures parts == [] ==> s == ""
  {
    if parts == [] then ""
    else if |parts| == 1 then parts[0]
    else parts[0] + ", " + Join(parts[1..])
  }

  /** Cuts a text at every ", ". */
  function Split(s: string): (r: seq<string>)
    ensures |r| >= 1
    decreases |s|
  {
    if s == [] then [""]
    else if |s| >= 2 && s[0] == ',' && s[1] == ' ' then [""] + Split(s[2..])
    else
      var rest := Split(s[1..]);
      [[s[0]] + rest[0]] + rest[1..]
  }

  predicate NoComma(s: string)
  {
    ',' !in s
  }

  lemma {:induction false} SplitPlain(part: string)
    requires NoComma(part)
    ensures Split(part) == [part]
    decreases |part|
  {
    if part != [] {
      SplitPlain(part[1..]);
      assert [part[0]] + part[1..] == part;
    }
  }

  lemma {:induction false} SplitFirst(part: string, rest: string)
    requires NoComma(part)
    ensures Split(part + ", " + rest) == [part] + Split(rest)
    decreases |part|
  {
    if part == [] {
      assert part + ", " + rest == [',', ' '] + rest;
      assert (part + ", " + rest)[2..] == rest;
    } else {
      assert (part + ", " + rest)[1..] == part[1..] + ", " + rest;
      SplitFirst(part[1..], rest);
      assert [part[0]] + part[1..] == part;
    }
  }

  /** The joined message can be taken apart again into the messages it was
      made of, since none of them holds a comma. */
  lemma {:induction false} SplitJoin(parts: seq<string>)
    requires parts != []
    requires forall k :: 0 <= k < |parts| ==> NoComma(parts[k])
    ensures Split(Join(parts)) == parts
    decreases |parts|
  {
    if |parts| == 1 {
      SplitPlain(parts[0]);
    } else {
      SplitJoin(parts[1..]);
      SplitFirst(parts[0], Join(parts[1..]));
      assert [parts[0]] + parts[1..] == parts;
    }
  }

  lemma NoCommaInNameOrEmail()
    ensures NoComma(Message(Name)) && NoComma(Message(Email))
  {
  }

  lemma NoCommaInAddressOrCity()
    ensures NoComma(Message(Address)) && NoComma(Message(City))
  {
  }

  lemma NoCommaInZipOrCardNumber()
    ensures NoComma(Message(Zip)) && NoComma(Message(CardNumber))
  {
  }

  lemma NoCommaInExpiryOrCvc()
    ensures NoComma(Message(CardExpiry)) && NoComma(Message(CardCvc))
  {
  }

  /** No message of the schema holds a comma. */
  lemma MessageNoComma(f: Field)
    ensures NoComma(Message(f))
  {
    NoCommaInNameOrEmail();
    NoCommaInAddressOrCity();
    NoCommaInZipOrCardNumber();
    NoCommaInExpiryOrCvc();
  }

  /** A 400 response names exactly the broken rules, in field order. */
  lemma ReportNamesBrokenRules(d: CustomerDetails, isEmail: string -> bool)
    requires ValidationErrors(d, isEmail) != []
    ensures Split(Join(ValidationErrors(d, isEmail))) == ValidationErrors(d, isEmail)
  {
    var errors := ValidationErrors(d, isEmail);
    var broken := Broken(d, isEmail, SchemaOrder);
    forall k | 0 <= k < |errors| ensures NoComma(errors[k]) {
      MessageNoComma(broken[k]);
    }
    SplitJoin(errors);
  }

  // ---------------------------------------------------------------------
  // The route

  datatype Body = Placed(placement: Placement) | Failure(message: string)
  datatype Response = Response(status: int, body: Body)

  /** `POST /api/checkout`: validate the details, then place the order. A
      broken rule answers 400 with every message joined and leaves the store
      as it was; a store error answers 500 with its message; otherwise 200
      with the placed order. */
  method Checkout(store: CouponCartStore, d: CustomerDetails, isEmail: string -> bool,
                  orderId: string, createdAt: int, suffix: string)
    returns (response: Response)
    requires store.Valid()
    requires Acceptable(d, isEmail) && store.cart != [] ==> store.FreshOrderId(orderId)
    requires Acceptable(d, isEmail) && store.cart != [] && NthOrderDue(|store.orders| + 1) ==>
               IsSuffix(suffix) && store.FreshCode(Save10Prefix + suffix)
    modifies store
    ensures store.Valid()
    ensures !Acceptable(d, isEmail) ==>
      && response == Response(400, Failure(Join(ValidationErrors(d, isEmail))))
      && store.cart == old(store.cart) && store.applied == old(store.applied)
      && store.orders == old(store.orders) && store.discountCodes == old(store.discountCodes)
    ensures Acceptable(d, isEmail) && old(store.cart) == [] ==>
      && response == Response(500, Failure(EmptyCart.Message()))
      && store.orders == old(store.orders) && store.discountCodes == old(store.discountCodes)
    ensures Acceptable(d, isEmail) && old(store.cart) != [] ==>
      && response.status == 200 && response.body.Placed?
      && store.orders == old(store.orders) + [response.body.placement.order]
      && response.body.placement.order.customerDetails == d
  {
    ValidationErrorsExact(d, isEmail, Name);
    var errors := ValidationErrors(d, isEmail);
    if errors != [] {
      return Response(400, Failure(Join(errors)));
    }
    var r := store.CreateOrder(d, orderId, createdAt, suffix);
    match r
    case Err(e) => response := Response(500, Failure(e.Message()));
    case Ok(placement) => response := Response(200, Placed(placement));
  }
}
